/** The application store and the browser globals that the wallet glue reads and writes.
    Values that the source handles as plain records are datatypes; the two objects whose
    fields are assigned in place (the store's state and `window`) are classes. */
module AppState {

  /** A JavaScript value that may be `null` or `undefined` (both are `None`). */
  datatype Option<T> = None | Some(value: T) {
    function GetOr(default: T): T {
      if Some? then value else default
    }
  }

  /** Errors that abort a step. `TypeError` is what JavaScript raises when a property
      is read on `null` or `undefined`; `HandlerError` is the error a WalletConnect event
      hands to its handler; `AuthFail` is the error checkAndChangeNetwork throws for an
      unknown chain; `StepRejected` is a rejection of checkChainOperStep passed on;
      `SdkRejected` is a rejected `enable()` or `disconnect()` of a wallet SDK provider. */
  datatype JsError = TypeError | HandlerError | AuthFail(chainId: int) | StepRejected | SdkRejected

  /** The outcome of a step that may throw. */
  datatype Outcome<T> = Done(value: T) | Thrown(error: JsError)

  type byte = x: int | 0 <= x < 256

  /** JavaScript truthiness of a nullable string: neither null nor empty. */
  predicate Truthy(s: Option<string>) {
    s.Some? && s.value != ""
  }

  /** An EIP-1193 provider object, reduced to what the glue inspects: an identity,
      its `isMetaMask` flag, and what its `isConnected()` / `connected` reports. */
  datatype Provider = Provider(id: nat, isMetaMask: bool, connected: bool)

  /** `window.ethereum`: the injected provider, its `providers` list (empty when
      absent) and the `selectedProvider` field the glue assigns. */
  datatype Ethereum = Ethereum(main: Provider, providers: seq<Provider>, selected: Option<Provider>)

  /** `store.state.web3`. */
  datatype Web3State = Web3State(
    coinbase: Option<string>,
    address: Option<string>,
    networkId: Option<int>,
    walletType: string,
    isConnected: bool)

  /** What `commit('WEB3', null)` leaves in `store.state.web3`. */
  const NoWeb3 := Web3State(None, None, None, "", false)

  /** The wallet type that selects WalletConnect, in both the window and the mobile connector. */
  const WalletConnectType := "WalletConnect"

  /** `store.state.backendUser`; `expire` is in milliseconds since the epoch. */
  datatype BackendUser = BackendUser(expire: Option<int>, token: Option<string>, coinbase: Option<string>)

  /** `store.state.user` (null before login). */
  datatype User = User(coinbase: Option<string>, isLocked: bool)

  datatype Contract = Contract(contractType: int, name: string, symbol: string)

  /** An entry of `config.block_chains`. */
  datatype Chain = Chain(chainId: int, name: string, contracts: seq<Contract>, rpcUrl: string, blockExplorerUrl: string)

  datatype PaymentToken = PaymentToken(address: string)

  /** `store.state.config`; `blockChains` is `None` when the field is missing. */
  datatype Config = Config(blockChains: Option<map<int, Chain>>, paymentTokens: map<int, PaymentToken>)

  /** A WalletConnect session object. */
  datatype Connector = Connector(id: nat, connected: bool, chainId: int, accounts: seq<string>)

  /** A `Web3` or ethers `Web3Provider` instance built over a provider. */
  datatype Instance = Instance(id: nat, provider: Provider)

  /** Store actions the glue dispatches; their own code is not part of this model. */
  datatype Action =
    | FetchConfig
    | RefreshToken
    | LoginProcessFull
    | LoginBackendUserFull(coinbase: Option<string>)
    | LogoutBackendUser
    | LogoutWalletUser

  /** Observable side effects, in the order the glue performs them. */
  datatype Effect =
    | Dispatch(action: Action)
    | ClearTimer(timer: int)
    | Reload
    | NetworkWarning(chainId: int)
    | DisconnectProvider(provider: Provider)
    | KillSession(connector: nat)
    | CreateSession(connector: nat)
    | StartCoinbase(chainId: int, rpcUrl: string)
    | PushLog

  /** How a list of accounts reported by a wallet relates to the store's coinbase: the
      wallet went away, it still shows the same first account, or it switched account. */
  datatype AccountsEvent = AccountsEmpty | SameAccount | NewAccount(coinbase: string)

  function ClassifyAccounts(current: Option<string>, accounts: seq<string>): (e: AccountsEvent)
    ensures e == AccountsEmpty <==> |accounts| == 0
    ensures e == SameAccount <==> |accounts| > 0 && current == Some(accounts[0])
    ensures e.NewAccount? <==> |accounts| > 0 && current != Some(accounts[0])
    ensures e.NewAccount? ==> e.coinbase == accounts[0]
  {
    if |accounts| == 0 then AccountsEmpty
    else if current == Some(accounts[0]) then SameAccount
    else NewAccount(accounts[0])
  }

  /** The network warning chainChanged and session_update show: the config lists chains
      and the new one is not among them. */
  function UnknownNetworkWarning(cfg: Config, chainId: int): (e: seq<Effect>)
    ensures e != [] <==> cfg.blockChains.Some? && chainId !in cfg.blockChains.value
    ensures e != [] ==> e == [NetworkWarning(chainId)]
  {
    if cfg.blockChains.Some? && chainId !in cfg.blockChains.value then [NetworkWarning(chainId)] else []
  }

  function FetchEffects(fetch: bool): seq<Effect> {
    if fetch then [Dispatch(FetchConfig)] else []
  }

  /** What an awaited `config` action does: `Done(cfg)` when it resolves leaving `cfg`
      as the store's config, `Thrown(e)` when it rejects and leaves the config as it was. */
  type FetchOutcome = Outcome<Option<Config>>

  /** The store's config after a `config` action that ran when `fetch` holds. */
  function ConfigAfterFetch(cfg: Option<Config>, fetch: bool, fetched: FetchOutcome): Option<Config> {
    if fetch && fetched.Done? then fetched.value else cfg
  }

  /** `store.state`, with the fields the wallet glue touches. */
  class Store {
    var web3: Web3State
    var backendUser: BackendUser
    var user: Option<User>
    var config: Option<Config>
    var configChain: Option<Chain>
    var chainIdRecord: int
    var walletProvider: Option<Provider>
    var connector: Option<Connector>
    var heartbeatTimer: Option<int>
    var multiLoginShow: bool
    var effects: seq<Effect>

    constructor ()
      ensures web3 == NoWeb3 && backendUser == BackendUser(None, None, None)
      ensures user == None && config == None && configChain == None && chainIdRecord == 0
      ensures walletProvider == None && connector == None && heartbeatTimer == None
      ensures !multiLoginShow && effects == []
    {
      web3 := NoWeb3;
      backendUser := BackendUser(None, None, None);
      user := None;
      config := None;
      configChain := None;
      chainIdRecord := 0;
      walletProvider := None;
      connector := None;
      heartbeatTimer := None;
      multiLoginShow := false;
      effects := [];
    }
  }

  /** The browser globals: `window.ethereum`, the `window.wallet` (Web3) and
      `window.web3Provider` (ethers) singletons, and `tools.isMobile()`. */
  class Window {
    var ethereum: Option<Ethereum>
    var wallet: Option<Instance>
    var web3Provider: Option<Instance>
    const isMobile: bool

    constructor (isMobile: bool, ethereum: Option<Ethereum>)
      ensures this.isMobile == isMobile && this.ethereum == ethereum
      ensures wallet == None && web3Provider == None
    {
      this.isMobile := isMobile;
      this.ethereum := ethereum;
      wallet := None;
      web3Provider := None;
    }
  }
}
