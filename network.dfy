/**
 * Network selection and the constants derived from it: the RPC endpoint,
 * the balance floor and registration fee, the faucet link and the
 * block-explorer links.
 *
 * The server re-reads `process.env.NETWORK || 'testnet'` in every handler;
 * here the environment is a value passed in, so every derivation of one
 * request reads the same network name.
 */
module Network {
  import opened Wrappers

  /** The environment variables the server reads (None when unset). */
  datatype Env = Env(network: Option<string>, mainnetRpcUrl: Option<string>, testnetRpcUrl: Option<string>)

  const TESTNET: string := "testnet"
  const MAINNET: string := "mainnet"
  const DEFAULT_MAINNET_RPC: string := "https://api.mainnet-beta.solana.com"
  const DEFAULT_TESTNET_RPC: string := "https://api.testnet.solana.com"
  const FAUCET_URL: string := "https://faucet.solana.com"
  const SOLSCAN_TX: string := "https://solscan.io/tx/"
  const SOLSCAN_ACCOUNT: string := "https://solscan.io/account/"
  const TESTNET_CLUSTER: string := "?cluster=testnet"

  /** 0.01 SOL and 0.1 SOL in lamports (1 SOL = 10^9 lamports); both
      products `0.01 * 1e9` and `0.1 * 1e9` are exact in IEEE doubles. */
  const TESTNET_LAMPORTS: nat := 10_000_000
  const MAINNET_LAMPORTS: nat := 100_000_000

  /** JavaScript's `v || fallback` on an environment variable: an unset
      variable and an empty one both give the fallback. */
  function OrElse(v: Option<string>, fallback: string): (r: string)
    ensures v.Some? && v.value != "" ==> r == v.value
    ensures v == None || v == Some("") ==> r == fallback
  {
    if v.Some? && v.value != "" then v.value else fallback
  }

  /** `process.env.NETWORK || 'testnet'`. */
  function NetworkName(env: Env): (n: string)
    ensures n != ""
    ensures env.network == None ==> n == TESTNET
    ensures env.network.Some? && env.network.value != "" ==> n == env.network.value
  {
    OrElse(env.network, TESTNET)
  }

  /** `getRpcUrl()`: the mainnet endpoint only for the exact name "mainnet". */
  function RpcUrl(env: Env): (url: string)
    ensures NetworkName(env) == MAINNET ==> url == OrElse(env.mainnetRpcUrl, DEFAULT_MAINNET_RPC)
    ensures NetworkName(env) != MAINNET ==> url == OrElse(env.testnetRpcUrl, DEFAULT_TESTNET_RPC)
  {
    if NetworkName(env) == MAINNET then OrElse(env.mainnetRpcUrl, DEFAULT_MAINNET_RPC)
    else OrElse(env.testnetRpcUrl, DEFAULT_TESTNET_RPC)
  }

  /** The buy handler's balance floor, `network === 'testnet' ? 0.01 * 1e9 : 0.1 * 1e9`;
      the registration fee is the same ternary written out again. */
  function BalanceFloor(network: string): (lamports: nat)
    ensures lamports == TESTNET_LAMPORTS <==> network == TESTNET
    ensures lamports == MAINNET_LAMPORTS <==> network != TESTNET
  {
    if network == TESTNET then 10_000_000 else 100_000_000
  }

  /** check-balance's `requiredBalance` in SOL. */
  function RequiredSol(network: string): real
  {
    if network == TESTNET then 0.01 else 0.1
  }

  /** check-balance's `requiredBalance` as `toString()` prints it. */
  function RequiredSolText(network: string): string
  {
    if network == TESTNET then "0.01" else "0.1"
  }

  /** check-balance's test `balance >= requiredBalance * 1e9`, on exact reals
      (both products are exact in IEEE doubles too). It agrees with the buy
      handler's floor in lamports, for every network name and balance. */
  function SufficientBalance(network: string, balance: nat): (ok: bool)
    ensures ok <==> balance >= BalanceFloor(network)
  {
    assert RequiredSol(network) * 1_000_000_000.0 == BalanceFloor(network) as real;
    balance as real >= RequiredSol(network) * 1_000_000_000.0
  }

  /** The faucet link attached to balance answers: present only on testnet. */
  function FaucetUrl(network: string): (url: Option<string>)
    ensures url.Some? <==> network == TESTNET
    ensures url.Some? ==> url.value == FAUCET_URL
  {
    if network == TESTNET then Some(FAUCET_URL) else None
  }

  /** The cluster suffix of every explorer link: none only for "mainnet". */
  function ClusterSuffix(network: string): string
  {
    if network == MAINNET then "" else TESTNET_CLUSTER
  }

  /** A transaction's explorer link. */
  function TxExplorerUrl(network: string, signature: string): (url: string)
    ensures |url| == |SOLSCAN_TX| + |signature| + |ClusterSuffix(network)|
    ensures url[..|SOLSCAN_TX|] == SOLSCAN_TX
    ensures url[|SOLSCAN_TX|..|SOLSCAN_TX| + |signature|] == signature
    ensures url[|SOLSCAN_TX| + |signature|..] == ClusterSuffix(network)
  {
    SOLSCAN_TX + signature + ClusterSuffix(network)
  }

  /** An account's explorer link. */
  function AccountExplorerUrl(network: string, address: string): (url: string)
    ensures |url| == |SOLSCAN_ACCOUNT| + |address| + |ClusterSuffix(network)|
    ensures url[..|SOLSCAN_ACCOUNT|] == SOLSCAN_ACCOUNT
    ensures url[|SOLSCAN_ACCOUNT|..|SOLSCAN_ACCOUNT| + |address|] == address
    ensures url[|SOLSCAN_ACCOUNT| + |address|..] == ClusterSuffix(network)
  {
    SOLSCAN_ACCOUNT + address + ClusterSuffix(network)
  }

  /** Network defaults to testnet when NETWORK is unset or empty. */
  lemma DefaultNetwork(env: Env)
    requires env.network == None || env.network == Some("")
    ensures NetworkName(env) == TESTNET
    ensures BalanceFloor(NetworkName(env)) == TESTNET_LAMPORTS
    ensures FaucetUrl(NetworkName(env)) == Some(FAUCET_URL)
  {
  }

  /** With no endpoint overrides, the mainnet endpoint is chosen exactly
      when the network name is "mainnet", and the testnet one otherwise. */
  lemma RpcUrlChoice(env: Env)
    requires env.mainnetRpcUrl == None && env.testnetRpcUrl == None
    ensures RpcUrl(env) == DEFAULT_MAINNET_RPC <==> NetworkName(env) == MAINNET
    ensures RpcUrl(env) == DEFAULT_TESTNET_RPC <==> NetworkName(env) != MAINNET
  {
    assert DEFAULT_MAINNET_RPC[12] != DEFAULT_TESTNET_RPC[12];
  }

  /** Every explorer link for a network other than "mainnet" is the mainnet
      link with the testnet cluster query appended. */
  lemma NonMainnetExplorerLinks(network: string, id: string)
    requires network != MAINNET
    ensures TxExplorerUrl(network, id) == TxExplorerUrl(MAINNET, id) + TESTNET_CLUSTER
    ensures AccountExplorerUrl(network, id) == AccountExplorerUrl(MAINNET, id) + TESTNET_CLUSTER
  {
  }

  /** A network name that is neither "testnet" nor "mainnet" reaches the
      testnet endpoint but is held to the mainnet floor and fee, gets no faucet link,
      and is sent to the testnet explorer. */
  lemma UnknownNetworkDisagrees(env: Env)
    requires NetworkName(env) != TESTNET && NetworkName(env) != MAINNET
    requires env.testnetRpcUrl == None
    ensures RpcUrl(env) == DEFAULT_TESTNET_RPC
    ensures BalanceFloor(NetworkName(env)) == MAINNET_LAMPORTS
    ensures FaucetUrl(NetworkName(env)) == None
    ensures ClusterSuffix(NetworkName(env)) == TESTNET_CLUSTER
  {
  }
}
