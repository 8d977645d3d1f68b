/**
 * `POST /api/buy-sns-name`: the checks in their short-circuit order, the
 * balance floor, and the single fee transfer the handler builds, signs
 * and submits.
 *
 * `Decide` is the decision the handler reaches from the request, the
 * environment and the ledger's accounts before it submits anything;
 * `BuySnsName` performs the handler's ledger calls step by step and is
 * proved to follow that decision.
 */
module Registration {
  import opened Wrappers
  import opened Chain
  import opened Foreign
  import opened Network
  import opened Names
  import opened Credentials

  /** The request body fields the handler reads. */
  datatype Body = Body(name: Value, privateKey: Value)

  /** The handler's answers; the balance figures are kept in lamports. */
  datatype BuyResponse =
    | MissingFields
    | InvalidNameFormat
    | InvalidKeyFormat
    | NameTaken
    | InsufficientBalance(balance: nat, required: nat, address: Address, network: string, faucetUrl: Option<string>)
    | Purchased(name: string, nameAccount: Address, walletAddress: Address, owner: Address,
                signature: Signature, network: string, explorerUrl: string, walletExplorerUrl: string)
    | ServerError

  function StatusCode(r: BuyResponse): (code: nat)
    ensures code == 200 <==> r.Purchased?
    ensures code == 500 <==> r.ServerError?
    ensures !r.Purchased? && !r.ServerError? ==> code == 400
  {
    match r
    case Purchased(_, _, _, _, _, _, _, _) => 200
    case ServerError => 500
    case _ => 400
  }

  /** What the handler does before submitting: answer at once, or register
      `name` for `payer` by paying the fee, which equals `BalanceFloor(network)`,
      into `nameAccount`. */
  datatype Plan =
    | Answer(response: BuyResponse)
    | Register(name: string, payer: Keypair, nameAccount: Address, network: string)

  /** Every check passed: the request reaches the ledger lookups. */
  predicate ReachesLedger(c: Crypto, body: Body)
  {
    Truthy(body.name) && Truthy(body.privateKey) && body.name.Str? &&
    ValidName(body.name.s) && ParseKeypair(c, body.privateKey).Some?
  }

  /**
   * The handler's checks, in order: both fields present; the name a string
   * (otherwise `toLowerCase` throws and the outer handler answers 500);
   * the name format; the private key; the name account derivable (a
   * derivation that throws also answers 500); the name account free; the
   * balance floor.
   */
  function Decide(env: Env, body: Body, c: Crypto, accounts: map<Address, Account>): (p: Plan)
    ensures p == Answer(MissingFields) <==> !Truthy(body.name) || !Truthy(body.privateKey)
    ensures p == Answer(ServerError) <==>
      (Truthy(body.name) && Truthy(body.privateKey) && !body.name.Str?) ||
      (ReachesLedger(c, body) && DeriveNameAccount(c.findProgramAddress, body.name.s).None?)
    ensures p == Answer(InvalidNameFormat) <==>
      Truthy(body.name) && Truthy(body.privateKey) && body.name.Str? && !ValidName(body.name.s)
    ensures p == Answer(InvalidKeyFormat) <==>
      Truthy(body.name) && Truthy(body.privateKey) && body.name.Str? && ValidName(body.name.s) &&
      ParseKeypair(c, body.privateKey).None?
    ensures p == Answer(NameTaken) <==>
      ReachesLedger(c, body) && DeriveNameAccount(c.findProgramAddress, body.name.s).Some? &&
      DeriveNameAccount(c.findProgramAddress, body.name.s).value in accounts
    ensures p.Answer? && p.response.InsufficientBalance? <==>
      ReachesLedger(c, body) && DeriveNameAccount(c.findProgramAddress, body.name.s).Some? &&
      DeriveNameAccount(c.findProgramAddress, body.name.s).value !in accounts &&
      BalanceOf(accounts, ParseKeypair(c, body.privateKey).value.publicKey) < BalanceFloor(NetworkName(env))
    ensures p.Answer? && p.response.InsufficientBalance? ==>
      p.response.balance == BalanceOf(accounts, ParseKeypair(c, body.privateKey).value.publicKey) &&
      p.response.balance < p.response.required == BalanceFloor(NetworkName(env)) &&
      p.response.address == ParseKeypair(c, body.privateKey).value.publicKey &&
      p.response.network == NetworkName(env) &&
      p.response.faucetUrl == FaucetUrl(NetworkName(env)) &&
      (p.response.faucetUrl.Some? <==> NetworkName(env) == TESTNET)
    ensures p.Answer? ==> !p.response.Purchased?
    ensures p.Register? ==>
      ReachesLedger(c, body) && p.name == body.name.s &&
      p.payer == ParseKeypair(c, body.privateKey).value &&
      DeriveNameAccount(c.findProgramAddress, body.name.s) == Some(p.nameAccount) &&
      p.nameAccount !in accounts &&
      p.network == NetworkName(env) &&
      BalanceOf(accounts, p.payer.publicKey) >= BalanceFloor(p.network)
  {
    if !Truthy(body.name) || !Truthy(body.privateKey) then Answer(MissingFields)
    else if !body.name.Str? then Answer(ServerError)
    else if !ValidName(body.name.s) then Answer(InvalidNameFormat)
    else match ParseKeypair(c, body.privateKey)
      case None => Answer(InvalidKeyFormat)
      case Some(keypair) =>
        var network := NetworkName(env);
        match DeriveNameAccount(c.findProgramAddress, body.name.s)
        case None => Answer(ServerError)
        case Some(nameAccount) =>
          if nameAccount in accounts then Answer(NameTaken)
          else
            var balance := BalanceOf(accounts, keypair.publicKey);
            var required := BalanceFloor(network);
            if balance < required then
              Answer(InsufficientBalance(balance, required, keypair.publicKey, network, FaucetUrl(network)))
            else
              Register(body.name.s, keypair, nameAccount, network)
  }

  /** The one message a registration submits: a transfer of the fee from the
      payer to the name account, paid for by the payer. */
  function RegistrationMessage(p: Plan, blockhash: Blockhash): (m: Message)
    requires p.Register?
    ensures m.feePayer == p.payer.publicKey && m.recentBlockhash == blockhash
    ensures |m.instructions| == 1
    ensures m.instructions[0].from == p.payer.publicKey && m.instructions[0].to == p.nameAccount
    ensures m.instructions[0].lamports == BalanceFloor(p.network)
  {
    Message(blockhash, p.payer.publicKey, [Transfer(p.payer.publicKey, p.nameAccount, BalanceFloor(p.network))])
  }

  /** The success answer for a registration confirmed under `signature`. */
  function PurchasedResponse(p: Plan, signature: Signature): (r: BuyResponse)
    requires p.Register?
    ensures r.Purchased? && r.owner == r.walletAddress == p.payer.publicKey
    ensures r.nameAccount == p.nameAccount && r.signature == signature && r.network == p.network
    ensures r.name == p.name
    ensures r.explorerUrl == TxExplorerUrl(p.network, signature)
    ensures r.walletExplorerUrl == AccountExplorerUrl(p.network, p.payer.publicKey)
  {
    Purchased(p.name, p.nameAccount, p.payer.publicKey, p.payer.publicKey, signature, p.network,
              TxExplorerUrl(p.network, signature), AccountExplorerUrl(p.network, p.payer.publicKey))
  }

  /**
   * The handler's tail once every check has passed: build the transaction
   * (one fee transfer, a fresh blockhash, the payer as fee payer), have
   * the payer alone sign and submit it, and answer with the signature.
   * A submission the ledger rejects answers 500 and changes nothing.
   */
  method SubmitRegistration(ledger: Ledger, p: Plan, c: Crypto) returns (resp: BuyResponse)
    requires p.Register?
    modifies ledger
    ensures ledger.latestBlockhash == old(ledger.latestBlockhash)
    ensures ledger.feePerSignature == old(ledger.feePerSignature)
    ensures var m := RegistrationMessage(p, old(ledger.latestBlockhash));
      var outcome := old(ledger.Outcome(m, [p.payer.publicKey]));
      if outcome.Some? then
        resp == PurchasedResponse(p, c.sign(p.payer, m)) &&
        ledger.accounts == outcome.value &&
        ledger.confirmed == old(ledger.confirmed) + [(c.sign(p.payer, m), m)]
      else
        resp == ServerError && ledger.accounts == old(ledger.accounts) && ledger.confirmed == old(ledger.confirmed)
  {
    var transaction := new Transaction();
    transaction.Add(Transfer(p.payer.publicKey, p.nameAccount, BalanceFloor(p.network)));
    assert transaction.instructions == [Transfer(p.payer.publicKey, p.nameAccount, BalanceFloor(p.network))];
    var blockhash := ledger.GetLatestBlockhash();
    transaction.recentBlockhash := Some(blockhash);
    transaction.feePayer := Some(p.payer.publicKey);
    assert transaction.CompileMessage() == Some(RegistrationMessage(p, blockhash));
    assert PublicKeys([p.payer]) == [p.payer.publicKey];

    var signature := SendAndConfirmTransaction(ledger, transaction, [p.payer], c.sign);
    if signature.None? {
      return ServerError;
    }
    resp := PurchasedResponse(p, signature.value);
  }

  /**
   * The handler. Every answer other than a purchase leaves the ledger as it
   * was; a purchase is the registration message signed by the payer alone,
   * accepted by the ledger, and answered with the payer's own address as
   * both wallet and owner. A submission the ledger rejects answers 500.
   */
  method BuySnsName(ledger: Ledger, env: Env, body: Body, c: Crypto) returns (resp: BuyResponse)
    modifies ledger
    ensures ledger.latestBlockhash == old(ledger.latestBlockhash)
    ensures ledger.feePerSignature == old(ledger.feePerSignature)
    ensures !resp.Purchased? ==> ledger.accounts == old(ledger.accounts) && ledger.confirmed == old(ledger.confirmed)
    ensures var p := Decide(env, body, c, old(ledger.accounts));
      p.Answer? ==> resp == p.response
    ensures var p := Decide(env, body, c, old(ledger.accounts));
      p.Register? ==>
        var m := RegistrationMessage(p, old(ledger.latestBlockhash));
        var outcome := old(ledger.Outcome(m, [p.payer.publicKey]));
        if outcome.Some? then
          resp == PurchasedResponse(p, c.sign(p.payer, m)) &&
          ledger.accounts == outcome.value &&
          ledger.confirmed == old(ledger.confirmed) + [(c.sign(p.payer, m), m)]
        else
          resp == ServerError
  {
    if !Truthy(body.name) || !Truthy(body.privateKey) {
      return MissingFields;
    }
    if !body.name.Str? {
      return ServerError;
    }
    var name := body.name.s;
    if !MatchesNamePattern(ToLower(name)) {
      return InvalidNameFormat;
    }
    var parsed := ParseKeypair(c, body.privateKey);
    if parsed.None? {
      return InvalidKeyFormat;
    }
    var keypair := parsed.value;

    var network := NetworkName(env);
    var derived := DeriveNameAccount(c.findProgramAddress, name);
    if derived.None? {
      return ServerError;
    }
    var nameAccount := derived.value;
    var nameAccountInfo := ledger.GetAccountInfo(nameAccount);
    if nameAccountInfo.Some? {
      return NameTaken;
    }

    var balance := ledger.GetBalance(keypair.publicKey);
    var requiredBalance := BalanceFloor(network);
    if balance < requiredBalance {
      return InsufficientBalance(balance, requiredBalance, keypair.publicKey, network, FaucetUrl(network));
    }

    var plan := Register(name, keypair, nameAccount, network);
    assert plan == Decide(env, body, c, ledger.accounts);
    resp := SubmitRegistration(ledger, plan, c);
  }
}

/** Properties of the buy handler that relate several of its steps. */
module RegistrationFacts {
  import opened Wrappers
  import opened Chain
  import opened Foreign
  import opened Network
  import opened Names
  import opened Credentials
  import opened Registration

  /** The floor is inclusive: a balance equal to it passes, one lamport less fails. */
  lemma BalanceFloorBoundary(env: Env, body: Body, c: Crypto, accounts: map<Address, Account>)
    requires ReachesLedger(c, body)
    requires DeriveNameAccount(c.findProgramAddress, body.name.s).Some?
    requires DeriveNameAccount(c.findProgramAddress, body.name.s).value !in accounts
    ensures var balance := BalanceOf(accounts, ParseKeypair(c, body.privateKey).value.publicKey);
      balance == BalanceFloor(NetworkName(env)) ==> Decide(env, body, c, accounts).Register?
    ensures var balance := BalanceOf(accounts, ParseKeypair(c, body.privateKey).value.publicKey);
      balance + 1 == BalanceFloor(NetworkName(env)) ==>
        Decide(env, body, c, accounts) ==
          Answer(InsufficientBalance(balance, BalanceFloor(NetworkName(env)),
                 ParseKeypair(c, body.privateKey).value.publicKey, NetworkName(env), FaucetUrl(NetworkName(env))))
  {
  }

  /** A rejected name is answered before any ledger account is consulted:
      the answer is the same whatever the ledger holds. */
  lemma NameRejectedBeforeLedger(env: Env, body: Body, c: Crypto, a1: map<Address, Account>, a2: map<Address, Account>)
    requires !ReachesLedger(c, body)
    ensures Decide(env, body, c, a1) == Decide(env, body, c, a2)
    ensures Decide(env, body, c, a1).Answer?
  {
  }

  /** A valid name longer than 32 characters is answered 500 once the key
      parses: its seed exceeds the 32-byte limit, so the derivation throws. */
  lemma LongValidNameAnswers500(env: Env, body: Body, c: Crypto, accounts: map<Address, Account>)
    requires Truthy(body.privateKey) && body.name.Str? && ValidName(body.name.s)
    requires |body.name.s| > MAX_SEED_LENGTH
    requires ParseKeypair(c, body.privateKey).Some?
    ensures Decide(env, body, c, accounts) == Answer(ServerError)
  {
    LongValidNameNotDerivable(c.findProgramAddress, body.name.s);
  }

  /**
   * The ledger accepts the registration transfer exactly when the payer can
   * cover the fee and the ledger's signature fee together: a balance at
   * the floor passes the handler's check but, when the ledger charges for
   * the signature, the submission is rejected and the handler answers 500.
   */
  lemma {:induction false} RegistrationAcceptedIff(ledger: Ledger, env: Env, body: Body, c: Crypto)
    requires Decide(env, body, c, ledger.accounts).Register?
    ensures var p := Decide(env, body, c, ledger.accounts);
      var m := RegistrationMessage(p, ledger.latestBlockhash);
      ledger.Outcome(m, [p.payer.publicKey]).Some? <==>
        BalanceOf(ledger.accounts, p.payer.publicKey) >= BalanceFloor(p.network) + ledger.feePerSignature
  {
    var p := Decide(env, body, c, ledger.accounts);
    var m := RegistrationMessage(p, ledger.latestBlockhash);
    var payer := p.payer.publicKey;
    var fee := ledger.feePerSignature * |[payer]|;
    assert fee == ledger.feePerSignature;
    assert payer in ledger.accounts by {
      assert BalanceOf(ledger.accounts, payer) >= BalanceFloor(p.network) > 0;
    }
    assert payer != p.nameAccount;
    assert !(exists i :: 0 <= i < |m.instructions| && m.instructions[i].from !in [payer]);
    if BalanceOf(ledger.accounts, payer) >= fee {
      var afterFee := Debit(ledger.accounts, payer, fee);
      assert ledger.Outcome(m, [payer]) == ApplyTransfers(afterFee, m.instructions);
      var ix := m.instructions[0];
      assert m.instructions[1..] == [];
      if BalanceOf(afterFee, payer) >= ix.lamports {
        assert ApplyTransfers(afterFee, m.instructions).Some?;
      } else {
        assert ApplyTransfers(afterFee, m.instructions).None?;
      }
    }
  }
}
