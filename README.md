# sns-name server: a Dafny model of its request logic

`server.js` is an Express server that registers Solana Name Service (SNS) names. It does so by paying a fee from a caller-supplied private key. It also answers questions about names, balances and transactions. This project models the decision logic of its handlers in Dafny and proves properties of that model. Around that logic, the ledger (`Connection`) and the cryptographic library (`@solana/web3.js`, `bs58`) are given inputs.

What is modelled:

- **Network selection** (`Network`). This covers `NETWORK || 'testnet'`, the RPC endpoint, the balance floor and the registration fee (10,000,000 lamports on `testnet`, 100,000,000 otherwise), the faucet link and the Solscan explorer links. The registration fee at line 153 repeats the floor's ternary at lines 127-129 verbatim, so both are `BalanceFloor`. check-balance writes the floor in SOL and compares against `requiredBalance * 1e9` (lines 253 and 261). The model keeps that form on exact reals and proves it agrees with the lamport floor. `0.01 * 1e9` and `0.1 * 1e9` are exact in IEEE doubles, so integer lamports lose nothing.
- **Names** (`Names`). This is the `/^[a-z0-9-]+$/` test on the lowercased name, and the name account derived from the lowercased name.
- **Private-key parsing** (`Credentials`). The request field is sniffed, in the source's order, as a base58 string, a comma-separated string, an array, or a JSON string. The bytes each branch produces are handed to `Keypair.fromSecretKey`.
- **The buy handler** (`Registration`). `Decide` is the pure decision over the request, the environment and the ledger's accounts. `BuySnsName` is the handler step by step: awaited ledger calls, early returns, and a `Transaction` object mutated in place. It is proved to follow `Decide`.
- **The read-only handlers** (`Queries`): `check-name`, `verify-name`, `check-balance` and `verify-transaction`.
- **A stand-in ledger** (`Chain`). It holds accounts, the latest blockhash, a per-signature fee and a log of confirmed transactions. Its preflight rejects a stale blockhash, a missing fee-payer or source signature, or a balance that cannot cover the signature fees and then the transfers. A rejected submission changes nothing.

The foreign calls are function-valued fields of `Foreign.Crypto`: `bs58.decode`, `Number`, `JSON.parse`, `Keypair.fromSecretKey`, `PublicKey.findProgramAddressSync`, `new PublicKey(text)` and signing. Addresses, signatures and blockhashes are their base58 text.

Consequences of the code that the model makes explicit:

- **The JSON branch is nearly dead.** A JSON array of two or more elements contains a comma, so it takes the comma branch (its first token, e.g. `[12`, reads as NaN). The JSON branch only sees comma-free strings of at most 40 UTF-16 units. When keys are 64 bytes, it never yields a key (`JsonBranchNeverYieldsKey`).
- **A balance exactly at the floor passes the check, but the ledger may still reject it.** The transfer moves the whole floor, so the ledger accepts it only when the payer also covers the signature fee (`RegistrationAcceptedIff`). Otherwise the handler answers 500.
- **An unknown network value gets inconsistent choices.** A `NETWORK` value other than `testnet` or `mainnet` gets the testnet endpoint, the mainnet fee, no faucet link, and testnet explorer links (`UnknownNetworkDisagrees`).
- **check-name and verify-name do not validate the name.** They derive and look it up as given.
- **A valid name longer than 32 characters is answered 500.** `findProgramAddressSync` throws for a seed longer than 32 bytes. A valid name is one byte per character, so any valid name of 33 or more characters makes the buy handler answer 500 once the key parses (`LongValidNameAnswers500`). check-name and verify-name answer 500 for such names too.
- `owner` is always the payer's address (server.js:181-182).
- The network is any string (server.js:26, 111), not one of two values.
- The secret-key length is checked only by `Keypair.fromSecretKey` (server.js:78-100).

## Model

| member | source | states |
|---|---|---|
| Network.OrElse | server.js:26-30 | the fallback on an environment variable: a set, non-empty value wins; unset or empty gives the fallback |
| Network.NetworkName | server.js:26 | the network name is never empty; it is `NETWORK` when that is set and non-empty, and `testnet` when it is unset |
| Network.DefaultNetwork | server.js:111 | unset or empty `NETWORK` gives `testnet`, the 10,000,000-lamport floor and the faucet link |
| Network.RpcUrl | server.js:25-31 | the endpoint is the mainnet override or default iff the network is exactly `mainnet`, and the testnet override or default otherwise |
| Network.RpcUrlChoice | server.js:25-31 | without endpoint overrides, the mainnet RPC is chosen iff the network is exactly `mainnet`, the testnet RPC otherwise |
| Network.BalanceFloor | server.js:127-129 | the floor, and the fee at line 153, is 10,000,000 lamports iff the network is exactly `testnet`, 100,000,000 otherwise |
| Network.SufficientBalance | server.js:253-261 | check-balance's `balance >= requiredBalance * 1e9` in SOL holds iff the balance reaches the buy handler's lamport floor |
| Network.FaucetUrl | server.js:134-136 | a faucet link is present iff the network is `testnet`, and it is `https://faucet.solana.com` |
| Network.TxExplorerUrl | server.js:185-187 | the link is the Solscan tx prefix, then the signature, then the cluster suffix |
| Network.AccountExplorerUrl | server.js:188-190 | the link is the Solscan account prefix, then the address, then the cluster suffix |
| Network.NonMainnetExplorerLinks | server.js:316-318 | for any network other than `mainnet`, every explorer link is the mainnet link plus `?cluster=testnet` |
| Network.UnknownNetworkDisagrees | server.js:111-136 | a network neither `testnet` nor `mainnet` uses the testnet RPC but the mainnet floor (and so fee), no faucet, and testnet explorer links |
| Names.ToLower | server.js:36 | lowercasing keeps the length and maps each character independently |
| Names.MatchesNamePattern | server.js:65 | the pattern matches iff the text is non-empty and every character is in a–z, 0–9 or `-` |
| Names.ValidName | server.js:64-70 | a name passes iff it is non-empty and every character is a letter of either case, a digit, `-` or U+212A (which lowercases to `k`) |
| Names.ValidNameIgnoresCase | server.js:65 | names equal up to case are accepted alike |
| Names.ValidNameOfLowercase | server.js:65 | a name and its lowercase form are accepted alike |
| Names.Utf8Length | server.js:36 | the seed `Buffer.from(text)` takes between one and four bytes per character |
| Names.AsciiUtf8Length | server.js:36 | text made only of pattern characters takes one byte per character |
| Names.DeriveNameAccount | server.js:35-49 | derivation fails when the lowercased name takes more than 32 bytes; otherwise it is the program-address derivation over `name`, the root domain and the lowercased name, under the registry program |
| Names.LongValidNameNotDerivable | server.js:35-49 | a valid name longer than 32 characters cannot be derived |
| Names.DerivationIgnoresCase | server.js:35-49 | names equal up to case derive the same name account |
| Credentials.Truthy | server.js:57 | a field is truthy iff it is a non-empty string, an array or another object |
| Credentials.Utf16Length | server.js:76 | `length` counts UTF-16 units: between one and two per character |
| Credentials.Split | server.js:83 | `split(',')` gives one comma-free token per field, comma count + 1 of them, and joining them with commas gives the input back |
| Credentials.SplitJoin | server.js:83 | splitting the comma-joined text of comma-free tokens gives back the same tokens in order |
| Credentials.Classify | server.js:76-100 | base58 iff a string of length > 40 without a comma; comma list iff a string with a comma; array iff an array; JSON iff a comma-free string of length ≤ 40; else unsupported; each branch carries the field's own text or items |
| Credentials.Uint8Array | server.js:88 | `new Uint8Array(items)` keeps the length and takes each element modulo 256 |
| Credentials.TokenBytes | server.js:83-84 | one byte per token, in order, each `Number(token)` as a Uint8 |
| Credentials.KeyBytes | server.js:76-100 | only strings and arrays yield bytes; the comma branch always yields one byte per token in order; the base58 branch yields the decoded bytes; an array yields its `Uint8Array`; the JSON branch yields bytes iff the parse is an array, and then the parsed array's `Uint8Array` |
| Credentials.ParseKeypair | server.js:72-107 | a keypair is obtained only from `fromSecretKey` on the chosen branch's bytes, and is exactly its answer when the branch yields bytes |
| Credentials.CsvRoundTrip | server.js:82-85 | the comma-separated decimal text of ≥ 2 bytes takes the comma branch and hands exactly those bytes to `fromSecretKey` |
| Credentials.TokenBytesOfByteTokens | server.js:83-84 | reading back the decimal tokens of a byte array gives the bytes |
| Credentials.ArrayRoundTrip | server.js:87-89 | an array of bytes is handed to `fromSecretKey` unchanged |
| Credentials.JsonBranchNeverYieldsKey | server.js:90-97 | a string reaching the JSON branch never yields a 64-byte key, because it has no comma |
| Credentials.OtherInputsRejected | server.js:98-106 | a value that is neither a string nor an array is rejected |
| Chain.Transaction.constructor | server.js:154 | a new transaction has no instructions, blockhash or fee payer |
| Chain.Transaction.Add | server.js:154-160 | `add` appends one instruction and changes nothing else |
| Chain.Transaction.CompileMessage | server.js:162-165 | a message exists iff blockhash and fee payer are set, and it carries the instructions, that blockhash and that fee payer |
| Chain.Ledger.GetAccountInfo | server.js:115 | the lookup answers an account iff one exists at the address |
| Chain.Ledger.GetBalance | server.js:125 | the balance lookup answers the account's lamports, 0 for an unknown address |
| Chain.Ledger.GetLatestBlockhash | server.js:163 | the blockhash lookup answers the ledger's latest blockhash |
| Chain.FindSignerIsFirst | server.js:168-173 | the signer that signs for an address is the first one in the signer list with that public key |
| Chain.SendAndConfirmTransaction | server.js:168-173 | it answers a signature iff the ledger accepts the message signed by the signers; the signature is the fee payer's; on acceptance the ledger applies the message and logs it, otherwise nothing changes |
| Registration.StatusCode | server.js:58-199 | 200 iff a purchase, 500 iff a server error, 400 otherwise |
| Registration.Decide | server.js:52-147 | checks short-circuit in order: missing fields; a non-string name (500); name format; key parse; a failed derivation (500); name taken; balance below floor (with the payer's balance, the floor, the payer, the network and the network's faucet link); otherwise register at the floor fee into the free derived account |
| Registration.RegistrationMessage | server.js:153-165 | the submitted message is one transfer of exactly the balance-floor amount from the payer to the name account, with the payer as fee payer and the fetched blockhash |
| Registration.PurchasedResponse | server.js:175-192 | the success answer echoes the requested name; its `owner` equals its `walletAddress` (the payer), with the name account, signature, network and both explorer links |
| Registration.SubmitRegistration | server.js:149-199 | builds and submits the registration message signed by the payer alone; success applies it and answers the purchase, rejection answers 500 and changes nothing |
| Registration.BuySnsName | server.js:52-201 | the handler answers as `Decide` says without touching the ledger, or submits the registration message and answers the purchase or 500 |
| RegistrationFacts.BalanceFloorBoundary | server.js:127-147 | a balance equal to the floor registers; one lamport less answers insufficient balance with the payload |
| RegistrationFacts.NameRejectedBeforeLedger | server.js:57-115 | a request that fails a field, name or key check gets the same answer whatever the ledger holds |
| RegistrationFacts.LongValidNameAnswers500 | server.js:113-199 | a valid name longer than 32 characters with a parsable key is answered 500 |
| RegistrationFacts.RegistrationAcceptedIff | server.js:131-173 | the ledger accepts the registration iff the payer's balance covers the floor plus the signature fee |
| Queries.CheckName | server.js:213-231 | 500 iff the derivation fails; otherwise `available` iff no account exists at the name account derived from the name |
| Queries.VerifyName | server.js:329-367 | 500 iff the derivation fails; otherwise `registered` iff the derived account exists, iff not `available`; when registered, it reports the account's owner, lamports, data length and explorer link |
| Queries.CheckAndVerifyAgree | server.js:338-359 | both fail on the same names; otherwise verify-name's `registered` is the negation of check-name's `available`, for the same account |
| Queries.AvailabilityIgnoresCase | server.js:217-223 | names equal up to case fail alike, and otherwise have the same availability and account |
| Queries.RegisteredNameUnavailable | server.js:154-223 | after the ledger confirms a registration, check-name reports that name, in any case, as unavailable at the registered account |
| Queries.CheckBalance | server.js:235-264 | 400 iff the address is not a public key; `sufficient` iff balance ≥ floor; `required` is `0.01` on `testnet` and `0.1` otherwise; the faucet link is `https://faucet.solana.com` iff `testnet` and absent otherwise |
| Queries.SufficientIffPurchasePassesFloor | server.js:253-261 | check-balance reports `sufficient` for the payer iff the buy handler would pass its balance check and register |
| Queries.LookupStatusCode | server.js:286-325 | 404 iff the transaction was not found, 500 iff the handler throws, 200 iff found and reported |
| Queries.KeyStringAsWritten | server.js:300 | mapping one key throws iff it is a `PublicKey` instance, and otherwise gives its address |
| Queries.KeyList | server.js:299-301 | one address per key, in order |
| Queries.KeyListAsWritten | server.js:299-301 | the handler's mapping throws iff some key is a `PublicKey` instance, and otherwise gives every key's address in order |
| Queries.AccountList | server.js:299-301 | a legacy message's list has one address per key in order; a version-0 message's list is its static keys |
| Queries.AccountListAsWritten | server.js:299-301 | the handler's mapping throws iff the message is version 0 or holds a `PublicKey` instance, and otherwise agrees with `AccountList` |
| Queries.VerifyTransactionAsWritten | server.js:274-325 | not found iff absent; 500 iff the account keys cannot be mapped; otherwise the same answer as `VerifyTransaction` |
| Queries.KeyShapesAnswer500 | server.js:299-325 | a legacy message of `PublicKey` instances and a version-0 message each get 500 as written, while `VerifyTransaction` lists their accounts |
| Queries.VerifyTransaction | server.js:274-319 | not found iff absent, found otherwise; `confirmed` iff `meta` exists with a null `err`; status `success` iff confirmed; error, block time and fee follow the source's falsy-to-null rules (a zero fee or block time reports null); accounts are every key's address in order; explorer link by network |
| Queries.MissingMetaIsFailed | server.js:294-312 | a transaction without `meta` is failed, with no error and no fee |

## Findings

| source | as written | input that shows it | evidently intended | confidence | as-written member | corrected member |
|---|---|---|---|---|---|---|
| server.js:299-301 | maps `message.accountKeys` by taking each non-string key's `pubkey` field | a legacy transaction, whose keys are `PublicKey` instances without `pubkey`, or a version-0 transaction, whose message has no `accountKeys`: either throws and the handler answers 500 | list the address of every account key of the transaction, for both message versions | medium, not executed; depends on the answer shape of `getTransaction` in `@solana/web3.js` | Queries.VerifyTransactionAsWritten | Queries.VerifyTransaction |

## Left out

- The HTTP layer is not modelled: Express routing, CORS, the `success` flags, the message strings, `console` logging, `/api/health` and `app.listen`.
- Floating-point presentation is not modelled: SOL amounts via `/1e9` and `toFixed`, the fee in SOL, and the ISO date of `blockTime`. Amounts stay integer lamports and block times stay seconds.
- The internals of `findProgramAddressSync` (seed hashing, off-curve test, bump search), `bs58.decode`, `JSON.parse`, `Keypair.fromSecretKey` and ed25519 signing are foreign code. They are parameters of the model.
- `Number()` is modelled only on integral tokens (None for NaN). Fractions and `Infinity` are not modelled, and neither are non-integer elements of arrays.
- Names.ToLower: maps only A–Z and U+212A. Other Unicode lowercase mappings are not modelled. No other mapping yields text made only of `[a-z0-9-]` (U+0130, for one, lowercases to `i` followed by U+0307, which is outside the class), so validation is unaffected. Derivation of unvalidated names in check-name and verify-name can differ.
- JavaScript strings with unpaired surrogates are not modelled. Dafny characters are Unicode scalar values.
- Ledger RPC failures of `getAccountInfo`, `getBalance`, `getLatestBlockhash` and `getTransaction` (500 in the source) are not modelled. Only a rejected submission is. Nor is `new Connection(getRpcUrl(), ...)` throwing on an endpoint override that does not start with `http:` or `https:`, which makes every handler answer 500 (server.js:110, 216, 238, 277, 332).
- The stand-in ledger accepts only the latest blockhash. It has no rent-exemption rule, no confirmation timeout, and no fee charged for a transaction that fails after preflight. `sendAndConfirmTransaction`'s own mutation of the transaction's signature list is not modelled.
- Two behaviours of `@solana/web3.js` transactions are not modelled, and neither changes this handler's outcome: a message compiled without a fee payer takes the first signer as fee payer, and `sendTransaction` replaces `recentBlockhash` with a blockhash it fetches itself.
- check-balance uses the address text as the key. The canonical re-encoding by `new PublicKey` is not modelled.
- Queries.VerifyTransaction: the accounts a version-0 message loads through address lookup tables are not listed, only its static keys.
- Queries.VerifyTransaction: a `meta` whose `err` field is absent (`undefined`, not `null`) is not distinguished from `null`. The ledger always sets it.
- Concurrent requests racing on the same name are not modelled.
