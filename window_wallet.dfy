/** web3/index.js: wallets reached through `window.ethereum` (MetaMask, Coinbase Wallet)
    or through a WalletConnect provider, the provider and Web3 singletons, and the
    account and chain change handlers. */
module WindowWallet {
  import opened AppState
  import ConnectTools

  const MetaMaskType := "MetaMask"
  const CoinbaseType := "CoinbaseWallet"

  const MainnetRpc := "https://mainnet.infura.io/v3/d19db1686df8452498a18bf8e53ca02f"
  const GoerliRpc := "https://goerli.infura.io/v3/d19db1686df8452498a18bf8e53ca02f"
  const MumbaiRpc := "https://rpc-mumbai.maticvigil.com/"

  /** rpcDict: the chains with a JSON-RPC endpoint. */
  function RpcDict(): (m: map<int, string>)
    ensures m.Keys == {1, 5, 80001}
    ensures m[1] == MainnetRpc && m[5] == GoerliRpc && m[80001] == MumbaiRpc
  {
    map[1 := MainnetRpc, 5 := GoerliRpc, 80001 := MumbaiRpc]
  }

  // ----- Provider predicates --------------------------------------------------------

  /** isMetaMask: a MetaMask provider while MetaMask is the chosen wallet. */
  function IsMetaMask(p: Provider, walletType: string): (r: bool)
    ensures r <==> p.isMetaMask && walletType == MetaMaskType
  {
    p.isMetaMask && walletType == MetaMaskType
  }

  /** isCoinBase: a non-MetaMask provider while Coinbase Wallet is chosen; never true
      together with isMetaMask. */
  function IsCoinBase(p: Provider, walletType: string): (r: bool)
    ensures r <==> !p.isMetaMask && walletType == CoinbaseType
    ensures r ==> !IsMetaMask(p, walletType)
  {
    !p.isMetaMask && walletType == CoinbaseType
  }

  /** isWalletConnect: WalletConnect is the chosen wallet. */
  function IsWalletConnect(walletType: string): (r: bool)
    ensures r <==> walletType == WalletConnectType
  {
    walletType == WalletConnectType
  }

  /** The test applied to each candidate provider. */
  predicate Matches(p: Provider, walletType: string) {
    IsMetaMask(p, walletType) || IsCoinBase(p, walletType)
  }

  /** The candidates a wallet type accepts. */
  lemma MatchesByWalletType(p: Provider, walletType: string)
    ensures walletType == MetaMaskType ==> (Matches(p, walletType) <==> p.isMetaMask)
    ensures walletType == CoinbaseType ==> (Matches(p, walletType) <==> !p.isMetaMask)
    ensures walletType != MetaMaskType && walletType != CoinbaseType ==> !Matches(p, walletType)
  {
  }

  // ----- Picking a provider from window.ethereum.providers --------------------------

  /** The matching provider nearest the end of `ps`. */
  function LastMatch(ps: seq<Provider>, walletType: string): (r: Option<Provider>)
    ensures r.Some? ==> r.value in ps && Matches(r.value, walletType)
    decreases |ps|
  {
    if ps == [] then None
    else if Matches(ps[|ps| - 1], walletType) then Some(ps[|ps| - 1])
    else LastMatch(ps[..|ps| - 1], walletType)
  }

  predicate IsLastMatch(ps: seq<Provider>, walletType: string, k: int) {
    0 <= k < |ps| && Matches(ps[k], walletType)
    && forall j :: k < j < |ps| ==> !Matches(ps[j], walletType)
  }

  lemma {:induction false} LastMatchSpec(ps: seq<Provider>, walletType: string)
    ensures LastMatch(ps, walletType).None? <==> forall j :: 0 <= j < |ps| ==> !Matches(ps[j], walletType)
    ensures LastMatch(ps, walletType).Some? ==>
      exists k :: IsLastMatch(ps, walletType, k) && LastMatch(ps, walletType) == Some(ps[k])
    decreases |ps|
  {
    if ps != [] {
      var n := |ps| - 1;
      if Matches(ps[n], walletType) {
        assert IsLastMatch(ps, walletType, n);
      } else {
        var front := ps[..n];
        LastMatchSpec(front, walletType);
        if LastMatch(front, walletType).Some? {
          var k :| IsLastMatch(front, walletType, k) && LastMatch(front, walletType) == Some(front[k]);
          assert IsLastMatch(ps, walletType, k);
        } else {
          assert forall j :: 0 <= j < n ==> ps[j] == front[j];
        }
      }
    }
  }

  /** The `forEach` of getWindowEthereumProvider: each matching provider overwrites the
      pick, so the last one wins. */
  method LastMatchingProvider(ps: seq<Provider>, walletType: string) returns (e: Option<Provider>)
    ensures e == LastMatch(ps, walletType)
    ensures e.None? <==> forall j :: 0 <= j < |ps| ==> !Matches(ps[j], walletType)
    ensures e.Some? ==> exists k :: IsLastMatch(ps, walletType, k) && e == Some(ps[k])
  {
    e := None;
    for i := 0 to |ps|
      invariant e == LastMatch(ps[..i], walletType)
    {
      assert ps[..i + 1][..i] == ps[..i];
      if Matches(ps[i], walletType) {
        e := Some(ps[i]);
      }
    }
    assert ps[..|ps|] == ps;
    LastMatchSpec(ps, walletType);
  }

  /** A provider lookup: the provider returned, the store's `walletProvider` and
      `window.ethereum` afterwards. */
  datatype ProviderLookup = ProviderLookup(result: Option<Provider>, walletProvider: Option<Provider>, ethereum: Option<Ethereum>)

  /** getWindowEthereumProvider. */
  function WindowProviderLookup(cached: Option<Provider>, walletType: string, eth: Option<Ethereum>, isMobile: bool): (l: ProviderLookup)
    ensures eth.None? ==> l == ProviderLookup(None, cached, eth)
    ensures eth.Some? && cached.Some? ==> l == ProviderLookup(cached, cached, eth)
    ensures eth.Some? && cached.None? && !isMobile && walletType == "" ==> l.result.None?
    ensures eth.Some? && cached.None? && (isMobile || walletType != "") && |eth.value.providers| > 0 ==>
      l.result == LastMatch(eth.value.providers, walletType)
    ensures eth.Some? ==> l.walletProvider == l.result
    ensures l.ethereum.Some? <==> eth.Some?
    ensures eth.Some? ==> l.ethereum.value.providers == eth.value.providers && l.ethereum.value.main == eth.value.main
  {
    if eth.None? then ProviderLookup(None, cached, eth)
    else if cached.Some? then ProviderLookup(cached, cached, eth)
    else
      var e := eth.value;
      if isMobile then
        if |e.providers| > 0 then
          var pick := LastMatch(e.providers, walletType);
          ProviderLookup(pick, pick, if pick.Some? then Some(e.(selected := pick)) else eth)
        else ProviderLookup(Some(e.main), Some(e.main), eth)
      else if walletType == "" then ProviderLookup(None, cached, eth)
      else if |e.providers| > 0 then
        var pick := LastMatch(e.providers, walletType);
        ProviderLookup(pick, pick, eth)
      else
        var pick := if Matches(e.main, walletType) then Some(e.main) else None;
        ProviderLookup(pick, pick, eth)
  }

  /** getCurrentEtherum: the WalletConnect provider (built from `created` when none is
      stored) or the window provider. */
  function CurrentLookup(cached: Option<Provider>, walletType: string, eth: Option<Ethereum>, isMobile: bool, created: Provider): (l: ProviderLookup)
    ensures IsWalletConnect(walletType) ==>
      l == ProviderLookup(Some(cached.GetOr(created)), Some(cached.GetOr(created)), eth)
    ensures !IsWalletConnect(walletType) ==> l == WindowProviderLookup(cached, walletType, eth, isMobile)
  {
    if IsWalletConnect(walletType) then
      var p := cached.GetOr(created);
      ProviderLookup(Some(p), Some(p), eth)
    else WindowProviderLookup(cached, walletType, eth, isMobile)
  }

  /** Looking the provider up again, from the state the first lookup left, changes
      nothing and returns the same provider: the result is cached. */
  lemma CurrentLookupStable(cached: Option<Provider>, walletType: string, eth: Option<Ethereum>, isMobile: bool, created: Provider, created2: Provider)
    ensures var l := CurrentLookup(cached, walletType, eth, isMobile, created);
      CurrentLookup(l.walletProvider, walletType, l.ethereum, isMobile, created2) == l
  {
  }

  /** getWindowEthereumProvider. */
  method GetWindowEthereumProvider(st: Store, w: Window) returns (r: Option<Provider>)
    modifies st`walletProvider, w`ethereum
    ensures ProviderLookup(r, st.walletProvider, w.ethereum)
      == WindowProviderLookup(old(st.walletProvider), st.web3.walletType, old(w.ethereum), w.isMobile)
  {
    if w.ethereum.None? {
      return None;
    }
    var ethereum := st.walletProvider;
    if ethereum.Some? {
      return ethereum;
    }
    var walletType := st.web3.walletType;
    var e := w.ethereum.value;
    if w.isMobile {
      if |e.providers| > 0 {
        ethereum := LastMatchingProvider(e.providers, walletType);
        if ethereum.Some? {
          w.ethereum := Some(e.(selected := ethereum));
        }
      } else {
        ethereum := Some(e.main);
      }
    } else {
      if walletType == "" {
        return None;
      }
      if |e.providers| > 0 {
        ethereum := LastMatchingProvider(e.providers, walletType);
      } else if Matches(e.main, walletType) {
        ethereum := Some(e.main);
      }
    }
    st.walletProvider := ethereum;
    r := ethereum;
  }

  /** getWalletConnectProvider: the stored provider, or `created` stored for next time. */
  method GetWalletConnectProvider(st: Store, created: Provider) returns (p: Provider)
    modifies st`walletProvider
    ensures p == old(st.walletProvider).GetOr(created)
    ensures st.walletProvider == Some(p)
  {
    var provider := st.walletProvider;
    if provider.None? {
      provider := Some(created);
      st.walletProvider := provider;
    }
    p := provider.value;
  }

  /** getCurrentEtherum. */
  method GetCurrentEthereum(st: Store, w: Window, created: Provider) returns (r: Option<Provider>)
    modifies st`walletProvider, w`ethereum
    ensures ProviderLookup(r, st.walletProvider, w.ethereum)
      == CurrentLookup(old(st.walletProvider), st.web3.walletType, old(w.ethereum), w.isMobile, created)
  {
    if IsWalletConnect(st.web3.walletType) {
      var p := GetWalletConnectProvider(st, created);
      r := Some(p);
    } else {
      r := GetWindowEthereumProvider(st, w);
    }
  }

  /** isConnected: what the current provider reports. */
  method IsConnected(st: Store, w: Window, created: Provider) returns (b: bool)
    modifies st`walletProvider, w`ethereum
    ensures var l := CurrentLookup(old(st.walletProvider), st.web3.walletType, old(w.ethereum), w.isMobile, created);
      b == (l.result.Some? && l.result.value.connected)
      && st.walletProvider == l.walletProvider && w.ethereum == l.ethereum
  {
    var p := GetCurrentEthereum(st, w, created);
    b := p.Some? && p.value.connected;
  }

  /** The provider a singleton is built over, when getWeb3 / getWeb3Provider build one. */
  function SingletonBase(l: ProviderLookup): Option<Provider> {
    if l.result.Some? && l.result.value.connected then l.result else None
  }

  /** getWeb3: null unless the current provider is connected; otherwise the
      `window.wallet` singleton, created once. */
  method GetWeb3(st: Store, w: Window, created: Provider, newId: nat) returns (r: Option<Instance>)
    modifies st`walletProvider, w`ethereum, w`wallet
    ensures var l := CurrentLookup(old(st.walletProvider), st.web3.walletType, old(w.ethereum), w.isMobile, created);
      st.walletProvider == l.walletProvider && w.ethereum == l.ethereum
      && (SingletonBase(l).None? ==> r.None? && w.wallet == old(w.wallet))
      && (SingletonBase(l).Some? ==>
            r == Some(old(w.wallet).GetOr(Instance(newId, SingletonBase(l).value))) && w.wallet == r)
  {
    ghost var l := CurrentLookup(st.walletProvider, st.web3.walletType, w.ethereum, w.isMobile, created);
    CurrentLookupStable(st.walletProvider, st.web3.walletType, w.ethereum, w.isMobile, created, created);
    var p := GetCurrentEthereum(st, w, created);
    if p.None? {
      return None;
    }
    var connected := IsConnected(st, w, created);
    if !connected {
      return None;
    }
    if w.wallet.None? {
      var q := GetCurrentEthereum(st, w, created);
      w.wallet := Some(Instance(newId, q.value));
    }
    r := w.wallet;
  }

  /** getWeb3Provider: the same rule for the `window.web3Provider` singleton. */
  method GetWeb3Provider(st: Store, w: Window, created: Provider, newId: nat) returns (r: Option<Instance>)
    modifies st`walletProvider, w`ethereum, w`web3Provider
    ensures var l := CurrentLookup(old(st.walletProvider), st.web3.walletType, old(w.ethereum), w.isMobile, created);
      st.walletProvider == l.walletProvider && w.ethereum == l.ethereum
      && (SingletonBase(l).None? ==> r.None? && w.web3Provider == old(w.web3Provider))
      && (SingletonBase(l).Some? ==>
            r == Some(old(w.web3Provider).GetOr(Instance(newId, SingletonBase(l).value))) && w.web3Provider == r)
  {
    ghost var l := CurrentLookup(st.walletProvider, st.web3.walletType, w.ethereum, w.isMobile, created);
    CurrentLookupStable(st.walletProvider, st.web3.walletType, w.ethereum, w.isMobile, created, created);
    var p := GetCurrentEthereum(st, w, created);
    if p.None? {
      return None;
    }
    var connected := IsConnected(st, w, created);
    if !connected {
      return None;
    }
    if w.web3Provider.None? {
      var q := GetCurrentEthereum(st, w, created);
      w.web3Provider := Some(Instance(newId, q.value));
    }
    r := w.web3Provider;
  }

  // ----- Coinbase Wallet ------------------------------------------------------------

  datatype CoinbasePlan = NotCoinbase | NoRpc(chainId: int) | Start(chainId: int, rpcUrl: string)

  /** The chain and endpoint enableCoinbase starts the Coinbase SDK with. */
  function CoinbaseTarget(walletType: string, networkId: Option<int>): (p: CoinbasePlan)
    ensures p == NotCoinbase <==> walletType != CoinbaseType
    ensures walletType == CoinbaseType ==>
      var c := networkId.GetOr(1);
      (p.Start? <==> c != 0 && c in RpcDict()) && (p.Start? ==> p == Start(c, RpcDict()[c]))
    ensures walletType == CoinbaseType && networkId.None? ==> p == Start(1, MainnetRpc)
  {
    if walletType != CoinbaseType then NotCoinbase
    else
      var chainId := networkId.GetOr(1);
      if chainId != 0 && chainId in RpcDict() then Start(chainId, RpcDict()[chainId]) else NoRpc(chainId)
  }

  /** `window.ethereum` after enableCoinbase: the SDK provider is installed only when it
      was started, its `enable()` resolved (`enabled`) and there was no provider. */
  function InstalledEthereum(plan: CoinbasePlan, enabled: bool, eth: Option<Ethereum>, sdk: Provider): (e: Option<Ethereum>)
    ensures plan.Start? && enabled && eth.None? ==> e == Some(Ethereum(sdk, [], None))
    ensures !(plan.Start? && enabled && eth.None?) ==> e == eth
    ensures e.Some? <==> eth.Some? || (plan.Start? && enabled)
  {
    if plan.Start? && enabled && eth.None? then Some(Ethereum(sdk, [], None)) else eth
  }

  /** enableCoinbase: starts the SDK provider `sdk`; when its `enable()` resolves
      (`enabled`) the provider becomes `window.ethereum` if there is none, and when it
      rejects, enableCoinbase rejects with it. */
  method EnableCoinbase(st: Store, w: Window, sdk: Provider, enabled: bool) returns (plan: CoinbasePlan, r: Outcome<()>)
    modifies st`effects, w`ethereum
    ensures plan == CoinbaseTarget(st.web3.walletType, st.web3.networkId)
    ensures st.effects == old(st.effects) + CoinbaseEffects(plan)
    ensures w.ethereum == InstalledEthereum(plan, enabled, old(w.ethereum), sdk)
    ensures r.Thrown? <==> plan.Start? && !enabled
    ensures r.Thrown? ==> r.error == SdkRejected
  {
    plan := CoinbaseTarget(st.web3.walletType, st.web3.networkId);
    r := Done(());
    if plan.Start? {
      st.effects := st.effects + [StartCoinbase(plan.chainId, plan.rpcUrl)];
      if !enabled {
        return plan, Thrown(SdkRejected);
      }
      if w.ethereum.None? {
        w.ethereum := Some(Ethereum(sdk, [], None));
      }
    }
  }

  function CoinbaseEffects(plan: CoinbasePlan): seq<Effect> {
    if plan.Start? then [StartCoinbase(plan.chainId, plan.rpcUrl)] else []
  }

  // ----- Disconnecting --------------------------------------------------------------

  /** disconnectedChanged: stops the heartbeat and clears the wallet data. */
  method DisconnectedChanged(st: Store)
    modifies st`heartbeatTimer, st`effects, st`web3
    ensures st.web3 == NoWeb3
    ensures ConnectTools.TimerSet(old(st.heartbeatTimer)) ==>
      st.heartbeatTimer == None && st.effects == old(st.effects) + [ClearTimer(old(st.heartbeatTimer).value)]
    ensures !ConnectTools.TimerSet(old(st.heartbeatTimer)) ==>
      st.heartbeatTimer == old(st.heartbeatTimer) && st.effects == old(st.effects)
  {
    ConnectTools.EmptyLastTimeout(st);
    st.web3 := NoWeb3;
  }

  /** The `provider.disconnect()` call disconnectWallet makes: only for a provider that
      is not MetaMask. */
  function ProviderDisconnect(p: Option<Provider>): (e: seq<Effect>)
    ensures e != [] <==> p.Some? && !p.value.isMetaMask
    ensures e != [] ==> e == [DisconnectProvider(p.value)]
  {
    if p.Some? && !p.value.isMetaMask then [DisconnectProvider(p.value)] else []
  }

  function TimerEffects(t: Option<int>): seq<Effect> {
    if ConnectTools.TimerSet(t) then [ClearTimer(t.value)] else []
  }

  /** disconnectWallet: `disconnected` is whether the awaited `provider.disconnect()`
      resolves; when it rejects, the clean-up after it does not run. */
  method DisconnectWallet(st: Store, w: Window, created: Provider, disconnected: bool) returns (r: Outcome<()>)
    modifies st`walletProvider, st`heartbeatTimer, st`effects, st`web3, w`ethereum
    ensures var l := CurrentLookup(old(st.walletProvider), old(st.web3.walletType), old(w.ethereum), w.isMobile, created);
      st.walletProvider == l.walletProvider && w.ethereum == l.ethereum
      && (r.Thrown? <==> ProviderDisconnect(l.result) != [] && !disconnected)
      && (r.Thrown? ==> r.error == SdkRejected && st.effects == old(st.effects) + ProviderDisconnect(l.result))
      && (r.Done? ==> st.effects == old(st.effects) + ProviderDisconnect(l.result) + TimerEffects(old(st.heartbeatTimer)))
    ensures r.Thrown? ==> st.web3 == old(st.web3) && st.heartbeatTimer == old(st.heartbeatTimer)
    ensures r.Done? ==>
      st.web3 == NoWeb3 && st.heartbeatTimer == if ConnectTools.TimerSet(old(st.heartbeatTimer)) then None else old(st.heartbeatTimer)
  {
    var provider := GetCurrentEthereum(st, w, created);
    if provider.Some? && !provider.value.isMetaMask {
      st.effects := st.effects + [DisconnectProvider(provider.value)];
      if !disconnected {
        return Thrown(SdkRejected);
      }
    }
    DisconnectedChanged(st);
    r := Done(());
  }

  // ----- Event handlers -------------------------------------------------------------

  /** The `accountsChanged` handler; on an empty list it returns disconnectWallet's
      promise, so a rejected `provider.disconnect()` rejects the handler too. */
  method AccountsChanged(st: Store, w: Window, accounts: seq<string>, created: Provider, disconnected: bool)
    returns (ev: AccountsEvent, r: Outcome<()>)
    modifies st`walletProvider, st`heartbeatTimer, st`effects, st`web3, w`ethereum
    ensures ev == ClassifyAccounts(old(st.web3.coinbase), accounts)
    ensures ev != AccountsEmpty ==> r == Done(())
    ensures ev == AccountsEmpty ==>
      var l := CurrentLookup(old(st.walletProvider), old(st.web3.walletType), old(w.ethereum), w.isMobile, created);
      st.walletProvider == l.walletProvider && w.ethereum == l.ethereum
      && (r.Thrown? <==> ProviderDisconnect(l.result) != [] && !disconnected)
      && (r.Thrown? ==> r.error == SdkRejected && st.effects == old(st.effects) + ProviderDisconnect(l.result)
                        && st.web3 == old(st.web3) && st.heartbeatTimer == old(st.heartbeatTimer))
      && (r.Done? ==> st.effects == old(st.effects) + ProviderDisconnect(l.result) + TimerEffects(old(st.heartbeatTimer))
                      && st.web3 == NoWeb3
                      && st.heartbeatTimer == if ConnectTools.TimerSet(old(st.heartbeatTimer)) then None else old(st.heartbeatTimer))
  ensures ev == SameAccount ==>
      st.web3 == old(st.web3) && st.effects == old(st.effects) && st.walletProvider == old(st.walletProvider)
      && st.heartbeatTimer == old(st.heartbeatTimer) && w.ethereum == old(w.ethereum)
    ensures ev.NewAccount? ==>
      st.web3 == old(st.web3).(coinbase := Some(ev.coinbase))
      && st.effects == old(st.effects) + (if old(st.web3.isConnected) then [Dispatch(LogoutBackendUser), Reload] else [])
      && st.walletProvider == old(st.walletProvider) && st.heartbeatTimer == old(st.heartbeatTimer)
      && w.ethereum == old(w.ethereum)
  {
    ev := ClassifyAccounts(st.web3.coinbase, accounts);
    r := Done(());
    if |accounts| == 0 {
      r := DisconnectWallet(st, w, created, disconnected);
      return;
    }
    var coinbase := accounts[0];
    if st.web3.coinbase == Some(coinbase) {
      return;
    }
    st.web3 := st.web3.(coinbase := Some(coinbase));
    if st.web3.isConnected {
      st.effects := st.effects + [Dispatch(LogoutBackendUser), Reload];
    }
  }

  /** The `chainChanged` handler; it throws at once when there is no config. `fetched`
      is how the `config` action of its setConfigChain settles. */
  method ChainChanged(st: Store, w: Window, chainId: int, fetched: FetchOutcome, sdk: Provider, coinbaseEnabled: bool)
    returns (r: Outcome<()>)
    modifies st`web3, st`effects, st`config, st`configChain, st`chainIdRecord, st`walletProvider
    modifies w`ethereum, w`wallet, w`web3Provider
    ensures old(st.config).None? ==>
      r == Thrown(TypeError) && st.web3 == old(st.web3) && st.effects == old(st.effects)
      && st.config == old(st.config) && st.configChain == old(st.configChain)
      && st.chainIdRecord == old(st.chainIdRecord) && st.walletProvider == old(st.walletProvider)
      && w.ethereum == old(w.ethereum) && w.wallet == old(w.wallet) && w.web3Provider == old(w.web3Provider)
    ensures old(st.config).Some? ==>
      var fetch := ConnectTools.NeedsConfigFetch(old(st.configChain), old(st.chainIdRecord), chainId);
      var plan := CoinbaseTarget(old(st.web3.walletType), Some(chainId));
      r == Done(())
      && st.web3 == old(st.web3).(networkId := Some(chainId))
      && st.effects == old(st.effects) + UnknownNetworkWarning(old(st.config).value, chainId)
                       + FetchEffects(fetch) + CoinbaseEffects(plan)
      && ConnectTools.ConfigChainAfter(old(st.config), old(st.configChain), old(st.chainIdRecord), chainId, fetched,
                                       st.config, st.configChain, st.chainIdRecord)
      && (!(fetch && fetched.Thrown?) && ConnectTools.LookupChain(st.config, chainId).Done? ==>
            ConnectTools.ChainCacheCoherent(st.config, st.configChain, st.chainIdRecord))
      && w.ethereum == InstalledEthereum(plan, coinbaseEnabled, old(w.ethereum), sdk)
      && st.walletProvider == None && w.wallet == None && w.web3Provider == None
  {
    if st.config.None? {
      return Thrown(TypeError);
    }
    var config := st.config.value;
    if config.blockChains.Some? && chainId !in config.blockChains.value {
      st.effects := st.effects + [NetworkWarning(chainId)];
    }
    assert st.effects == old(st.effects) + UnknownNetworkWarning(config, chainId);
    st.web3 := st.web3.(networkId := Some(chainId));
    // not awaited: a rejected `config` action does not stop the handler
    var cached := ConnectTools.SetConfigChain(st, chainId, fetched);
    assert cached.Done? ==> ConnectTools.ChainCacheCoherent(st.config, st.configChain, st.chainIdRecord);
    // not awaited: a rejected `enable()` does not stop the handler
    var _, _ := EnableCoinbase(st, w, sdk, coinbaseEnabled);
    st.walletProvider := None;
    w.wallet := None;
    w.web3Provider := None;
    r := Done(());
  }

  // ----- Connecting -----------------------------------------------------------------

  datatype ConnectError = WalletNotInstalled | WalletEnableError | NoWalletAddress | Exception

  /** What connectWallet resolves with: nothing (the flow was abandoned), an error
      alone, or the connection details. */
  datatype ConnectResult =
    | NoResult
    | Failed(error: ConnectError)
    | Connected(networkId: int, coinbase: Option<string>, walletType: string, isConnected: bool, warning: Option<ConnectError>)

  /** The result connectWallet builds once it has a network and a coinbase. */
  function ShapeConnectResult(networkId: int, coinbase: Option<string>, walletType: string): (r: ConnectResult)
    ensures r.Connected? && r.networkId == networkId && r.coinbase == coinbase && r.walletType == walletType
    ensures r.isConnected <==> Truthy(coinbase)
    ensures r.warning.Some? <==> !r.isConnected
    ensures r.warning.Some? ==> r.warning.value == NoWalletAddress
  {
    if Truthy(coinbase) then Connected(networkId, coinbase, walletType, true, None)
    else Connected(networkId, coinbase, walletType, false, Some(NoWalletAddress))
  }

  /** What `walletSelectFn` did: dismissed, or stored a wallet type. */
  datatype WalletChoice = Dismissed | Chosen(walletType: string)

  /** The answers of the user and of the SDKs during connectWallet. */
  datatype ConnectAnswers = ConnectAnswers(
    choice: WalletChoice,
    coinbaseEnabled: bool,
    enabled: bool,
    chainId: int,
    coinbase: Option<string>,
    sdkProvider: Provider,
    wcProvider: Provider,
    web3Id: nat,
    web3ProviderId: nat,
    fetched: FetchOutcome)

  /** Whether connectWallet must know the wallet type before going on: on a desktop, or
      where several wallets are injected. */
  predicate NeedsWalletType(isMobile: bool, eth: Ethereum) {
    !isMobile || |eth.providers| > 0
  }

  /** connectWallet (window wallets). */
  method ConnectWallet(st: Store, w: Window, a: ConnectAnswers) returns (r: ConnectResult)
    modifies st`web3, st`effects, st`walletProvider, st`config, st`configChain, st`chainIdRecord
    modifies w`ethereum, w`wallet, w`web3Provider
    ensures old(w.ethereum).None? ==> r == Failed(WalletNotInstalled) && st.web3 == old(st.web3)
    ensures r.Connected? ==>
      r == ShapeConnectResult(a.chainId, a.coinbase, st.web3.walletType)
      && ConnectTools.LookupChain(st.config, a.chainId).Done?
      && st.configChain == ConnectTools.LookupChain(st.config, a.chainId).value
    ensures r.Connected? && !old(st.web3.isConnected) && old(w.ethereum).Some? ==>
      if NeedsWalletType(w.isMobile, old(w.ethereum).value)
      then a.choice == Chosen(r.walletType) && r.walletType != ""
      else r.walletType == ""
    ensures r.Connected? && old(st.web3.isConnected) && old(st.web3.walletType) != "" ==> r.walletType == old(st.web3.walletType)
    ensures r.Connected? ==> w.wallet.Some? ==> w.wallet.value.id == a.web3Id
    ensures r.Connected? && !a.coinbaseEnabled ==> !CoinbaseTarget(st.web3.walletType, st.web3.networkId).Start?
  {
    if w.ethereum.None? {
      return Failed(WalletNotInstalled);
    }
    if !st.web3.isConnected {
      st.web3 := st.web3.(walletType := "");
    }
    var walletType := st.web3.walletType;
    if NeedsWalletType(w.isMobile, w.ethereum.value) {
      if walletType == "" {
        if st.multiLoginShow {
          return NoResult;
        }
        match a.choice
        case Dismissed =>
          return NoResult;
        case Chosen(t) =>
          st.web3 := st.web3.(walletType := t);
          walletType := st.web3.walletType;
      }
      if walletType == "" {
        return NoResult;
      }
    }
    var _, started := EnableCoinbase(st, w, a.sdkProvider, a.coinbaseEnabled);
    if started.Thrown? {
      st.effects := st.effects + [PushLog];
      return Failed(Exception);
    }
    var current := GetCurrentEthereum(st, w, a.wcProvider);
    if current.None? {
      // `request` on a null provider: the catch block logs and returns the message
      st.effects := st.effects + [PushLog];
      return Failed(Exception);
    }
    if !a.enabled {
      return Failed(WalletEnableError);
    }
    w.wallet := None;
    w.web3Provider := None;
    var _ := GetWeb3(st, w, a.wcProvider, a.web3Id);
    var _ := GetWeb3Provider(st, w, a.wcProvider, a.web3ProviderId);
    var chain := ConnectTools.SetConfigChain(st, a.chainId, a.fetched);
    if chain.Thrown? {
      st.effects := st.effects + [PushLog];
      return Failed(Exception);
    }
    r := ShapeConnectResult(a.chainId, a.coinbase, walletType);
  }
}
