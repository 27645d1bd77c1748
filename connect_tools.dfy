/** connectTools.js: the session and permission gate run before marketplace operations,
    the chain-configuration cache, and the network-switch flow. Times are milliseconds. */
module ConnectTools {
  import opened AppState

  /** Default `defaultTime` of checkUserIsLogin: a token must outlive `now` by more than 30 s. */
  const LoginMargin := 30000

  /** checkIsRefreshToken refreshes a token that expires within the next five minutes. */
  const RefreshWindow := 300000

  // ----- Session checks -------------------------------------------------------------

  /** `Date.parse(new Date(ms))`: the string form of a date carries no milliseconds, so
      the time reads back floored to its second. */
  function WholeSecond(ms: int): (t: int)
    ensures t % 1000 == 0 && t <= ms < t + 1000
  {
    ms - ms % 1000
  }

  /** checkUserIsLogin: the backend token is usable for more than `defaultTime` ms, with
      both the expiry and the clock read to the second. */
  function CheckUserIsLogin(bu: BackendUser, now: int, defaultTime: int): (r: bool)
    ensures bu.expire.None? ==> !r
    ensures bu.expire.Some? ==>
      (r <==> bu.token.Some? && Truthy(bu.coinbase)
              && WholeSecond(bu.expire.value) - WholeSecond(now) > defaultTime)
  {
    bu.expire.Some? && Truthy(bu.coinbase) && bu.token.Some?
    && WholeSecond(bu.expire.value) - WholeSecond(now) > defaultTime
  }

  /** isCurrentWalletUserToken: reading `user.coinbase` throws when there is no user. */
  function IsCurrentWalletUserToken(bu: BackendUser, user: Option<User>): (r: Outcome<bool>)
    ensures r.Thrown? <==> user.None?
    ensures user.Some? ==> r == Done(bu.coinbase == user.value.coinbase)
  {
    if user.None? then Thrown(TypeError) else Done(bu.coinbase == user.value.coinbase)
  }

  /** The expiry as checkIsRefreshToken reads it: `+new Date(null)` is 0. */
  function RefreshExpire(bu: BackendUser): int {
    bu.expire.GetOr(0)
  }

  datatype RefreshDecision = KeepToken | Refresh | RefreshThrows

  /** The decision checkIsRefreshToken takes. */
  function RefreshTokenDecision(bu: BackendUser, user: Option<User>, now: int): (d: RefreshDecision)
    ensures d == Refresh <==>
      now < RefreshExpire(bu) < now + RefreshWindow && user.Some? && bu.coinbase == user.value.coinbase
    ensures d == RefreshThrows <==> now < RefreshExpire(bu) < now + RefreshWindow && user.None?
  {
    var expireTime := RefreshExpire(bu);
    if expireTime > now && expireTime - RefreshWindow < now then
      match IsCurrentWalletUserToken(bu, user)
      case Done(current) => if current then Refresh else KeepToken
      case Thrown(_) => RefreshThrows
    else KeepToken
  }

  /** A token refreshed by checkIsRefreshToken still passes checkUserIsLogin whenever
      at least a second more than the 30 s margin is left (the login test reads both
      times to the second), so the refresh comes before the session lapses. */
  lemma RefreshPrecedesLogout(bu: BackendUser, user: Option<User>, now: int)
    requires bu.expire.Some? && bu.token.Some? && Truthy(bu.coinbase)
    requires user.Some? && user.value.coinbase == bu.coinbase
    requires now + LoginMargin + 1000 <= bu.expire.value < now + RefreshWindow
    ensures RefreshTokenDecision(bu, user, now) == Refresh
    ensures CheckUserIsLogin(bu, now, LoginMargin)
  {
  }

  /** At the 30 s margin and a whole-second expiry, reading the clock to the second
      changes nothing: the test is the plain millisecond comparison. */
  lemma LoginMarginWholeExpiry(bu: BackendUser, now: int)
    requires bu.expire.Some? && bu.expire.value % 1000 == 0
    ensures CheckUserIsLogin(bu, now, LoginMargin) <==>
      bu.token.Some? && Truthy(bu.coinbase) && bu.expire.value - now > LoginMargin
  {
  }

  /** checkIsRefreshToken: dispatches `refreshtoken` when the decision says so and leaves
      the store otherwise unchanged; `refreshed` is how that awaited action settles, and
      the promise checkIsRefreshToken returns settles as `r`. */
  method CheckIsRefreshToken(st: Store, now: int, refreshed: Outcome<()>) returns (d: RefreshDecision, r: Outcome<()>)
    modifies st`effects
    ensures d == RefreshTokenDecision(old(st.backendUser), old(st.user), now)
    ensures st.effects == old(st.effects) + (if d == Refresh then [Dispatch(RefreshToken)] else [])
    ensures d == Refresh ==> r == refreshed
    ensures d == RefreshThrows ==> r == Thrown(TypeError)
    ensures d == KeepToken ==> r == Done(())
  {
    d := RefreshTokenDecision(st.backendUser, st.user, now);
    r := Done(());
    if d == Refresh {
      st.effects := st.effects + [Dispatch(RefreshToken)];
      r := refreshed;
    } else if d == RefreshThrows {
      r := Thrown(TypeError);
    }
  }

  /** isUserLocked. */
  function IsUserLocked(user: Option<User>): (r: bool)
    ensures r <==> user.Some? && user.value.isLocked
  {
    user.Some? && user.value.isLocked
  }

  /** checkNetworkForOper: the wanted chain is the wallet's network (a missing network
      parses to NaN and matches nothing). */
  function CheckNetworkForOper(chainId: int, networkId: Option<int>): (r: bool)
    ensures r <==> networkId.Some? && networkId.value == chainId
  {
    networkId == Some(chainId)
  }

  /** What the permission checks read at one moment: the connector's `isConnected()`,
      the store's `web3`, `backendUser` and `user`, and the time. */
  datatype Gate = Gate(walletConnected: bool, web3: Web3State, backendUser: BackendUser, user: Option<User>, now: int)

  /** checkUserIsLoginBaseWallet: logged in, and as the account the wallet shows. */
  function CheckUserIsLoginBaseWallet(g: Gate): (r: bool)
    ensures r ==> CheckUserIsLogin(g.backendUser, g.now, LoginMargin)
    ensures r <==>
      CheckUserIsLogin(g.backendUser, g.now, LoginMargin)
      && Truthy(g.backendUser.coinbase) && g.backendUser.coinbase == g.web3.coinbase
  {
    var isUserLogin := CheckUserIsLogin(g.backendUser, g.now, LoginMargin);
    if !isUserLogin then false
    else Truthy(g.backendUser.coinbase) && g.backendUser.coinbase == g.web3.coinbase
  }

  /** walletUserIsConnected: the wallet's provider or connector reports itself connected,
      and the store holds a connected account. */
  function WalletUserIsConnected(g: Gate): (r: bool)
    ensures r <==> g.walletConnected && g.web3.isConnected
  {
    g.walletConnected && g.web3.isConnected
  }

  /** checkChainOperEnabled. */
  function CheckChainOperEnabled(g: Gate): (r: bool)
    ensures r <==> CheckUserIsLoginBaseWallet(g) && WalletUserIsConnected(g) && !IsUserLocked(g.user)
    ensures IsUserLocked(g.user) ==> !r
  {
    var walletConnected := WalletUserIsConnected(g);
    var isUserLogin := CheckUserIsLoginBaseWallet(g);
    var userIsLocked := IsUserLocked(g.user);
    isUserLogin && walletConnected && !userIsLocked
  }

  // ----- The decision tree before an on-chain operation ------------------------------

  /** What a login action did: its promise resolved (`failed` when the result carries an
      `error`; `lockedAfter` is isUserLocked() read afterwards), or it rejected
      (`hasMessage` when the rejection has an `error` or `message` to show). */
  datatype LoginOutcome = Returned(failed: bool, lockedAfter: bool) | Threw(hasMessage: bool)

  datatype Rejection = FullLoginFailed | BackendLoginFailed | AccountLocked | LoginThrew

  datatype StepResult = Resolved | Rejected(reason: Rejection)

  /** The settled promise, the action dispatched on the way and whether an alert dialog
      was shown. */
  datatype Step = Step(result: StepResult, dispatched: Option<Action>, alert: bool)

  function AfterLogin(o: LoginOutcome, onFailure: Rejection, action: Action): (s: Step)
    ensures s.dispatched == Some(action)
    ensures s.result.Resolved? <==> o == Returned(false, false)
  {
    match o
    case Returned(failed, lockedAfter) =>
      Step(if !failed && !lockedAfter then Resolved else Rejected(onFailure), Some(action), false)
    case Threw(hasMessage) => Step(Rejected(LoginThrew), Some(action), hasMessage)
  }

  /** checkChainOperStep, with the outcomes of `loginProcessFull` and
      `loginBackendUserFull` as parameters (only one of them is dispatched). */
  function ChainOperStep(g: Gate, fullLogin: LoginOutcome, backendLogin: LoginOutcome): (s: Step)
    ensures CheckChainOperEnabled(g) ==> s == Step(Resolved, None, false)
    ensures !CheckChainOperEnabled(g) && !WalletUserIsConnected(g) ==>
      s.dispatched == Some(LoginProcessFull) && (s.result.Resolved? <==> fullLogin == Returned(false, false))
    ensures !CheckChainOperEnabled(g) && WalletUserIsConnected(g) && !CheckUserIsLoginBaseWallet(g) ==>
      s.dispatched == Some(LoginBackendUserFull(g.web3.coinbase))
      && (s.result.Resolved? <==> backendLogin == Returned(false, false))
    ensures WalletUserIsConnected(g) && CheckUserIsLoginBaseWallet(g) ==>
      s.dispatched == None && (s.result == if IsUserLocked(g.user) then Rejected(AccountLocked) else Resolved)
    ensures s.result.Resolved? ==> CheckChainOperEnabled(g) || s.dispatched.Some?
  {
    if CheckChainOperEnabled(g) then Step(Resolved, None, false)
    else if !WalletUserIsConnected(g) then AfterLogin(fullLogin, FullLoginFailed, LoginProcessFull)
    else if !CheckUserIsLoginBaseWallet(g) then
      AfterLogin(backendLogin, BackendLoginFailed, LoginBackendUserFull(g.web3.coinbase))
    else if IsUserLocked(g.user) then
      // `reject(error); throw error`: the catch block alerts the message
      Step(Rejected(AccountLocked), None, true)
    else Step(Resolved, None, false)
  }

  /** The last `resolve()` of checkChainOperStep cannot be reached: a connected,
      logged-in user who gets that far is locked. */
  lemma ChainOperStepFinalBranchRejects(g: Gate, fullLogin: LoginOutcome, backendLogin: LoginOutcome)
    requires !CheckChainOperEnabled(g) && WalletUserIsConnected(g) && CheckUserIsLoginBaseWallet(g)
    ensures IsUserLocked(g.user)
    ensures ChainOperStep(g, fullLogin, backendLogin) == Step(Rejected(AccountLocked), None, true)
  {
  }

  /** checkBackendUserOperStep: a valid backend session suffices; otherwise the full check. */
  function BackendUserOperStep(g: Gate, fullLogin: LoginOutcome, backendLogin: LoginOutcome): (s: Step)
    ensures CheckUserIsLogin(g.backendUser, g.now, LoginMargin) ==> s == Step(Resolved, None, false)
    ensures !CheckUserIsLogin(g.backendUser, g.now, LoginMargin) ==> s == ChainOperStep(g, fullLogin, backendLogin)
  {
    if CheckUserIsLogin(g.backendUser, g.now, LoginMargin) then Step(Resolved, None, false)
    else ChainOperStep(g, fullLogin, backendLogin)
  }

  /** Whenever the on-chain check passes at once, so does the backend-only check. */
  lemma BackendCheckIsWeaker(g: Gate, fullLogin: LoginOutcome, backendLogin: LoginOutcome)
    requires ChainOperStep(g, fullLogin, backendLogin).dispatched.None?
    requires ChainOperStep(g, fullLogin, backendLogin).result.Resolved?
    ensures BackendUserOperStep(g, fullLogin, backendLogin) == Step(Resolved, None, false)
  {
  }

  /** checkChainOperEnable awaits checkChainOperStep: a resolution (with `undefined`)
      yields true and a rejection propagates, so the `return false` after the toast is
      never taken. */
  function CheckChainOperEnable(s: Step): (r: Outcome<bool>)
    ensures r != Done(false)
    ensures r == Done(true) <==> s.result.Resolved?
  {
    if s.result.Resolved? then Done(true) else Thrown(StepRejected)
  }

  // ----- Heartbeat timer ------------------------------------------------------------

  predicate TimerSet(t: Option<int>) {
    t.Some? && t.value != 0
  }

  /** emptyLastTimeout: clears and forgets a running heartbeat timer. */
  method EmptyLastTimeout(st: Store)
    modifies st`heartbeatTimer, st`effects
    ensures TimerSet(old(st.heartbeatTimer)) ==>
      st.heartbeatTimer == None && st.effects == old(st.effects) + [ClearTimer(old(st.heartbeatTimer).value)]
    ensures !TimerSet(old(st.heartbeatTimer)) ==>
      st.heartbeatTimer == old(st.heartbeatTimer) && st.effects == old(st.effects)
  {
    if TimerSet(st.heartbeatTimer) {
      st.effects := st.effects + [ClearTimer(st.heartbeatTimer.value)];
      st.heartbeatTimer := None;
    }
  }

  // ----- Chain configuration -------------------------------------------------------

  /** `config.block_chains[chainId]`, truthy or not; reading it throws when the config
      or its `block_chains` is missing. */
  function LookupChain(cfg: Option<Config>, chainId: int): (r: Outcome<Option<Chain>>)
    ensures r.Thrown? <==> cfg.None? || cfg.value.blockChains.None?
    ensures r.Done? ==> (r.value.Some? <==> chainId in cfg.value.blockChains.value)
    ensures r.Done? && r.value.Some? ==> r.value.value == cfg.value.blockChains.value[chainId]
  {
    if cfg.None? || cfg.value.blockChains.None? then Thrown(TypeError)
    else if chainId in cfg.value.blockChains.value then Done(Some(cfg.value.blockChains.value[chainId]))
    else Done(None)
  }

  /** setConfigChain refetches the config unless it holds a chain cached for `chainId`
      (a record of 0 counts as unset). */
  function NeedsConfigFetch(configChain: Option<Chain>, chainIdRecord: int, chainId: int): (r: bool)
    ensures !r <==> configChain.Some? && chainIdRecord != 0 && chainIdRecord == chainId
  {
    configChain.None? || chainIdRecord == 0 || chainIdRecord != chainId
  }

  /** The cache setConfigChain keeps: a cached chain is the config's entry for the
      recorded id, and no cached chain goes with record 0. */
  predicate ChainCacheCoherent(cfg: Option<Config>, configChain: Option<Chain>, chainIdRecord: int) {
    (configChain.None? ==> chainIdRecord == 0)
    && (configChain.Some? ==>
         LookupChain(cfg, chainIdRecord) == Done(configChain))
  }

  /** The cache setConfigChain(chainId) leaves, given the config it reads: unchanged when
      reading `block_chains` throws, the entry and its id when there is one, and null
      with record 0 when there is none. */
  predicate ChainCacheAfter(cfg: Option<Config>, chainId: int, oldChain: Option<Chain>, oldRecord: int,
                            configChain: Option<Chain>, chainIdRecord: int) {
    match LookupChain(cfg, chainId)
    case Thrown(_) => configChain == oldChain && chainIdRecord == oldRecord
    case Done(Some(c)) => configChain == Some(c) && chainIdRecord == chainId
    case Done(None) => configChain == None && chainIdRecord == 0
  }

  /** The config and chain cache setConfigChain(chainId) leaves, from those before it and
      how its `config` action settles: a rejection leaves the cache as it was. */
  predicate ConfigChainAfter(cfg0: Option<Config>, chain0: Option<Chain>, record0: int, chainId: int,
                             fetched: FetchOutcome, cfg: Option<Config>, chain: Option<Chain>, record: int) {
    var fetch := NeedsConfigFetch(chain0, record0, chainId);
    cfg == ConfigAfterFetch(cfg0, fetch, fetched)
    && if fetch && fetched.Thrown? then chain == chain0 && record == record0
       else ChainCacheAfter(cfg, chainId, chain0, record0, chain, record)
  }

  /** setConfigChain(chainId); `fetched` is how the `config` action settles when it is
      dispatched. A rejection is passed on before the cache is touched. */
  method SetConfigChain(st: Store, chainId: int, fetched: FetchOutcome) returns (r: Outcome<Option<Chain>>)
    modifies st`config, st`configChain, st`chainIdRecord, st`effects
    ensures var fetch := NeedsConfigFetch(old(st.configChain), old(st.chainIdRecord), chainId);
      st.effects == old(st.effects) + FetchEffects(fetch)
      && st.config == ConfigAfterFetch(old(st.config), fetch, fetched)
    ensures var fetch := NeedsConfigFetch(old(st.configChain), old(st.chainIdRecord), chainId);
      fetch && fetched.Thrown? ==> r == Thrown(fetched.error)
    ensures var fetch := NeedsConfigFetch(old(st.configChain), old(st.chainIdRecord), chainId);
      !(fetch && fetched.Thrown?) ==>
        r == LookupChain(st.config, chainId)
        && ChainCacheAfter(st.config, chainId, old(st.configChain), old(st.chainIdRecord), st.configChain, st.chainIdRecord)
    ensures r.Thrown? ==> st.configChain == old(st.configChain) && st.chainIdRecord == old(st.chainIdRecord)
    ensures r.Done? && r.value.Some? ==> st.configChain == r.value && st.chainIdRecord == chainId
    ensures r.Done? && r.value.None? ==> st.configChain == None && st.chainIdRecord == 0
    ensures r.Done? ==> ChainCacheCoherent(st.config, st.configChain, st.chainIdRecord)
    ensures ConfigChainAfter(old(st.config), old(st.configChain), old(st.chainIdRecord), chainId, fetched,
                             st.config, st.configChain, st.chainIdRecord)
  {
    if NeedsConfigFetch(st.configChain, st.chainIdRecord, chainId) {
      st.effects := st.effects + [Dispatch(FetchConfig)];
      if fetched.Thrown? {
        return Thrown(fetched.error);
      }
      st.config := fetched.value;
    }
    r := LookupChain(st.config, chainId);
    if r.Done? {
      if r.value.Some? {
        st.configChain := r.value;
        st.chainIdRecord := chainId;
      } else {
        st.configChain := None;
        st.chainIdRecord := 0;
      }
    }
  }

  /** After a successful setConfigChain(c) that found the chain, a second call with the
      same non-zero id does not refetch; with id 0 it always does. */
  lemma SetConfigChainCached(cfg: Option<Config>, chainId: int)
    requires LookupChain(cfg, chainId).Done? && LookupChain(cfg, chainId).value.Some?
    ensures NeedsConfigFetch(LookupChain(cfg, chainId).value, chainId, chainId) <==> chainId == 0
  {
  }

  /** What a lookup after an awaited `config` action gives: the action's rejection when
      it was dispatched and rejected, otherwise `block_chains[chainId]` of the config then. */
  function LookupAfterFetch(cfg: Option<Config>, fetch: bool, fetched: FetchOutcome, chainId: int): Outcome<Option<Chain>> {
    if fetch && fetched.Thrown? then Thrown(fetched.error)
    else LookupChain(ConfigAfterFetch(cfg, fetch, fetched), chainId)
  }

  /** getConfigChain(chainId): fetches the config only when there is none. */
  method GetConfigChain(st: Store, chainId: int, fetched: FetchOutcome) returns (r: Outcome<Option<Chain>>)
    modifies st`config, st`effects
    ensures st.effects == old(st.effects) + FetchEffects(old(st.config).None?)
    ensures st.config == ConfigAfterFetch(old(st.config), old(st.config).None?, fetched)
    ensures r == LookupAfterFetch(old(st.config), old(st.config).None?, fetched, chainId)
  {
    if st.config.None? {
      st.effects := st.effects + [Dispatch(FetchConfig)];
      if fetched.Thrown? {
        return Thrown(fetched.error);
      }
      st.config := fetched.value;
    }
    r := LookupChain(st.config, chainId);
  }

  // ----- Payment tokens -------------------------------------------------------------

  const ZeroAddress := "0x0000000000000000000000000000000000000000"

  /** getConfigPayToken(id, 'address'): reading `.address` of a missing token throws. */
  function PayTokenAddress(cfg: Option<Config>, payTokenId: int): (r: Outcome<string>)
    ensures r.Thrown? <==> cfg.None? || payTokenId !in cfg.value.paymentTokens
    ensures r.Done? ==> r.value == cfg.value.paymentTokens[payTokenId].address
  {
    if cfg.None? || payTokenId !in cfg.value.paymentTokens then Thrown(TypeError)
    else Done(cfg.value.paymentTokens[payTokenId].address)
  }

  /** The WETH test of isWethToken: every address but the zero address. */
  function IsWethAddress(address: string): (r: bool)
    ensures !r <==> address == ZeroAddress
  {
    address != ZeroAddress
  }

  /** isWethToken(payTokenId): fetches the config only when there is none; a rejected
      `config` action is passed on. */
  method IsWethToken(st: Store, payTokenId: int, fetched: FetchOutcome) returns (r: Outcome<bool>)
    modifies st`config, st`effects
    ensures st.effects == old(st.effects) + FetchEffects(old(st.config).None?)
    ensures st.config == ConfigAfterFetch(old(st.config), old(st.config).None?, fetched)
    ensures old(st.config).None? && fetched.Thrown? ==> r == Thrown(fetched.error)
    ensures !(old(st.config).None? && fetched.Thrown?) ==>
      (r.Thrown? <==> PayTokenAddress(st.config, payTokenId).Thrown?)
      && (r.Done? ==> (r.value <==> PayTokenAddress(st.config, payTokenId).value != ZeroAddress))
  {
    if st.config.None? {
      st.effects := st.effects + [Dispatch(FetchConfig)];
      if fetched.Thrown? {
        return Thrown(fetched.error);
      }
      st.config := fetched.value;
    }
    var address := PayTokenAddress(st.config, payTokenId);
    match address
    case Done(a) => r := Done(IsWethAddress(a));
    case Thrown(e) => r := Thrown(e);
  }

  // ----- Symbol of a network's currency ---------------------------------------------

  /** `t[k]` is a `)` with neither `)` nor `\` before it: the end of a match of
      `[^\\)]*\)` at the start of `t`. */
  predicate ClosesAt(t: string, k: nat) {
    k < |t| && t[k] == ')' && forall i :: 0 <= i < k ==> t[i] != ')' && t[i] != '\\'
  }

  /** Length of the match of `[^\\)]*\)` at the start of `t`, if any. */
  function CloseLen(t: string): (r: Option<nat>)
    ensures r.Some? ==> 1 <= r.value && ClosesAt(t, r.value - 1)
    ensures r.None? ==> forall k :: 0 <= k < |t| ==> !ClosesAt(t, k)
    decreases |t|
  {
    if t == [] then None
    else if t[0] == ')' then Some(1)
    else if t[0] == '\\' then None
    else
      match CloseLen(t[1..])
      case Some(n) =>
        assert ClosesAt(t[1..], n - 1);
        Some(n + 1)
      case None =>
        assert forall k :: 1 <= k < |t| && ClosesAt(t, k) ==> ClosesAt(t[1..], k - 1);
        None
  }

  /** `s.replace(/\([^\\)]*\)/g, '')`: removes, left to right, every `(` … `)` group
      that holds neither `)` nor `\`. */
  function StripGroups(s: string): (r: string)
    ensures |r| <= |s|
    decreases |s|
  {
    if s == [] then []
    else if s[0] == '(' && CloseLen(s[1..]).Some? then StripGroups(s[1 + CloseLen(s[1..]).value..])
    else [s[0]] + StripGroups(s[1..])
  }

  /** No position of `s` starts a removable group. */
  predicate NoGroup(s: string)
    decreases |s|
  {
    s == [] || ((s[0] != '(' || CloseLen(s[1..]).None?) && NoGroup(s[1..]))
  }

  lemma CloseLenPrepend(c: char, t: string)
    requires c != ')' && c != '\\'
    ensures CloseLen([c] + t).None? <==> CloseLen(t).None?
  {
    assert ([c] + t)[1..] == t;
  }

  /** A string with no closing `)` reachable from its start keeps that property when
      groups are stripped from it. */
  lemma {:induction false} StripKeepsUnclosed(t: string)
    requires CloseLen(t).None?
    ensures CloseLen(StripGroups(t)).None?
    decreases |t|
  {
    if t != [] {
      assert t[0] != ')';
      var r := StripGroups(t[1..]);
      if t[0] == '\\' {
        assert StripGroups(t) == [t[0]] + r;
      } else {
        assert CloseLen(t[1..]).None?;
        assert StripGroups(t) == [t[0]] + r;
        StripKeepsUnclosed(t[1..]);
        CloseLenPrepend(t[0], r);
      }
    }
  }

  /** No group is left once the groups are stripped. */
  lemma {:induction false} StripGroupsLeavesNoGroup(s: string)
    ensures NoGroup(StripGroups(s))
    decreases |s|
  {
    if s != [] {
      if s[0] == '(' && CloseLen(s[1..]).Some? {
        StripGroupsLeavesNoGroup(s[1 + CloseLen(s[1..]).value..]);
      } else {
        var r := StripGroups(s[1..]);
        StripGroupsLeavesNoGroup(s[1..]);
        assert StripGroups(s) == [s[0]] + r;
        assert ([s[0]] + r)[1..] == r;
        if s[0] == '(' {
          StripKeepsUnclosed(s[1..]);
        }
      }
    }
  }

  /** A string without groups is left as it is. */
  lemma {:induction false} StripGroupsOfNoGroup(s: string)
    requires NoGroup(s)
    ensures StripGroups(s) == s
    decreases |s|
  {
    if s != [] {
      StripGroupsOfNoGroup(s[1..]);
      assert [s[0]] + s[1..] == s;
    }
  }

  /** Stripping is idempotent: the symbol shown never changes when stripped again. */
  lemma StripGroupsIdempotent(s: string)
    ensures StripGroups(StripGroups(s)) == StripGroups(s)
  {
    StripGroupsLeavesNoGroup(s);
    StripGroupsOfNoGroup(StripGroups(s));
  }

  /** `contracts.find(c => c.contract_type === 1)`, searching from index `k`. */
  function FindCurrencyFrom(cs: seq<Contract>, k: nat): (r: Option<nat>)
    requires k <= |cs|
    ensures r.Some? ==> k <= r.value < |cs| && cs[r.value].contractType == 1
    ensures r.Some? ==> forall j :: k <= j < r.value ==> cs[j].contractType != 1
    ensures r.None? ==> forall j :: k <= j < |cs| ==> cs[j].contractType != 1
    decreases |cs| - k
  {
    if k == |cs| then None
    else if cs[k].contractType == 1 then Some(k)
    else FindCurrencyFrom(cs, k + 1)
  }

  /** The network record changeNetworkForOper asks the wallet to switch to. */
  datatype Network = Network(chainId: int, name: string, coinName: string, coinSymbol: string, rpc: string, blockExplorerUrl: string)

  /** The first contract of type 1 names the coin; its symbol loses its groups. */
  function NetworkFor(chain: Chain): (n: Network)
    ensures n.chainId == chain.chainId && n.name == chain.name
    ensures n.rpc == chain.rpcUrl && n.blockExplorerUrl == chain.blockExplorerUrl
    ensures (forall j :: 0 <= j < |chain.contracts| ==> chain.contracts[j].contractType != 1) ==>
      n.coinName == "" && n.coinSymbol == ""
    ensures forall k ::
      (0 <= k < |chain.contracts| && chain.contracts[k].contractType == 1
       && forall j :: 0 <= j < k ==> chain.contracts[j].contractType != 1) ==>
      n.coinName == chain.contracts[k].name && n.coinSymbol == StripGroups(chain.contracts[k].symbol)
  {
    match FindCurrencyFrom(chain.contracts, 0)
    case Some(k) =>
      Network(chain.chainId, chain.name, chain.contracts[k].name, StripGroups(chain.contracts[k].symbol),
              chain.rpcUrl, chain.blockExplorerUrl)
    case None => Network(chain.chainId, chain.name, "", "", chain.rpcUrl, chain.blockExplorerUrl)
  }

  lemma NetworkSymbolHasNoGroup(chain: Chain)
    ensures NoGroup(NetworkFor(chain).coinSymbol)
  {
    match FindCurrencyFrom(chain.contracts, 0)
    case Some(k) => StripGroupsLeavesNoGroup(chain.contracts[k].symbol);
    case None =>
  }

  // ----- Switching network ----------------------------------------------------------

  /** How a wallet `request` settled: resolved with a value that has no `message`, or
      rejected with an error carrying `code` and `message`. */
  datatype RpcOutcome = RpcOk | RpcError(code: int, message: string)

  const UserRejectedCode := 4001
  const UserRejectedMessage := "User rejected the request."

  predicate UserRejected(o: RpcOutcome) {
    o.RpcError? && (o.code == UserRejectedCode || o.message == UserRejectedMessage)
  }

  /** What switchNetworkChain returns and whether it fell back to addNetworkChain. */
  datatype SwitchResult = SwitchResult(value: RpcOutcome, addAttempted: bool)

  /** switchNetworkChain with the outcomes of the switch and the add requests. */
  function SwitchNetworkChain(switchOutcome: RpcOutcome, addOutcome: RpcOutcome): (r: SwitchResult)
    ensures switchOutcome.RpcOk? ==> r == SwitchResult(RpcOk, false)
    ensures UserRejected(switchOutcome) ==> r == SwitchResult(switchOutcome, false)
    ensures switchOutcome.RpcError? && !UserRejected(switchOutcome) ==> r == SwitchResult(addOutcome, true)
    ensures r.addAttempted <==> switchOutcome.RpcError? && !UserRejected(switchOutcome)
  {
    match switchOutcome
    case RpcOk => SwitchResult(RpcOk, false)
    case RpcError(code, message) =>
      if code == UserRejectedCode || message == UserRejectedMessage then SwitchResult(switchOutcome, false)
      else SwitchResult(addOutcome, true)
  }

  /** What changeNetworkForOper did: the network it asked the wallet to switch to (only
      once the dialog was confirmed) and the boolean it returned. */
  datatype NetworkChange = NetworkChange(requested: Option<Network>, ok: bool)

  /** changeNetworkForOper(chain): true after a confirmed switch whose result has no
      `message`. */
  function ChangeNetworkForOper(chain: Chain, confirmed: bool, switchOutcome: RpcOutcome, addOutcome: RpcOutcome): (c: NetworkChange)
    ensures c.requested.Some? <==> confirmed
    ensures c.requested.Some? ==> c.requested.value == NetworkFor(chain) && NoGroup(c.requested.value.coinSymbol)
    ensures !confirmed ==> !c.ok
    ensures UserRejected(switchOutcome) && switchOutcome.message != "" ==> !c.ok
    ensures confirmed && switchOutcome.RpcOk? ==> c.ok
    ensures c.ok <==> confirmed && (SwitchNetworkChain(switchOutcome, addOutcome).value.RpcOk?
                                    || SwitchNetworkChain(switchOutcome, addOutcome).value.message == "")
  {
    if !confirmed then NetworkChange(None, false)
    else
      var network := NetworkFor(chain);
      NetworkSymbolHasNoGroup(chain);
      match SwitchNetworkChain(switchOutcome, addOutcome).value
      case RpcOk => NetworkChange(Some(network), true)
      case RpcError(_, message) => NetworkChange(Some(network), message == "")
  }

  /** The user's answers and the wallet's replies during checkAndChangeNetwork. */
  datatype SwitchAnswers = SwitchAnswers(confirmed: bool, switchOutcome: RpcOutcome, addOutcome: RpcOutcome)

  /** checkAndChangeNetwork(chainId); `requested` is the network the wallet was asked
      to switch to, if any. */
  method CheckAndChangeNetwork(st: Store, chainId: int, fetched: FetchOutcome, answers: SwitchAnswers)
    returns (r: Outcome<bool>, requested: Option<Network>)
    modifies st`config, st`effects
    ensures CheckNetworkForOper(chainId, old(st.web3.networkId)) ==>
      r == Done(true) && requested.None? && st.config == old(st.config) && st.effects == old(st.effects)
    ensures !CheckNetworkForOper(chainId, old(st.web3.networkId)) ==>
      st.effects == old(st.effects) + FetchEffects(old(st.config).None?)
      && st.config == ConfigAfterFetch(old(st.config), old(st.config).None?, fetched)
      && match LookupAfterFetch(old(st.config), old(st.config).None?, fetched, chainId)
         case Thrown(e) => r == Thrown(e) && requested.None?
         case Done(None) => r == Thrown(AuthFail(chainId)) && requested.None?
         case Done(Some(chain)) =>
           var c := ChangeNetworkForOper(chain, answers.confirmed, answers.switchOutcome, answers.addOutcome);
           r == Done(c.ok) && requested == c.requested
  {
    requested := None;
    if CheckNetworkForOper(chainId, st.web3.networkId) {
      return Done(true), None;
    }
    var chainObj := GetConfigChain(st, chainId, fetched);
    match chainObj
    case Thrown(e) => r := Thrown(e);
    case Done(None) => r := Thrown(AuthFail(chainId));
    case Done(Some(chain)) =>
      var c := ChangeNetworkForOper(chain, answers.confirmed, answers.switchOutcome, answers.addOutcome);
      r := Done(c.ok);
      requested := c.requested;
  }

  // ----- Connector choice -----------------------------------------------------------

  datatype ConnectorKind = MobileConnector | WindowConnector

  /** getConnector: WalletConnect on a mobile without an injected provider. */
  function GetConnector(isMobile: bool, hasEthereum: bool): (k: ConnectorKind)
    ensures k == MobileConnector <==> isMobile && !hasEthereum
  {
    if isMobile && !hasEthereum then MobileConnector else WindowConnector
  }
}
