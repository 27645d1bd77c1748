# Wallet connection glue of the PlayTop NFT market, in Dafny

This project models the wallet layer of a browser dApp front end. The layer connects
to MetaMask and Coinbase Wallet through `window.ethereum`, and to phone wallets
through a WalletConnect session. It keeps the wallet state in the application store,
and it decides whether a marketplace operation may go on-chain. The model covers:

- the session and permission gate of `connectTools.js`:
  - token validity with a 30 s margin, and refresh within five minutes of expiry;
  - the login-on-wallet, lock and network checks;
  - the login decision tree run before an on-chain operation;
  - the chain-configuration cache;
  - the symbol clean-up of the add-network dialog;
  - the switch-network fallback;
  - the WETH check;
- the window-wallet provider logic of `web3/index.js`:
  - provider selection and caching;
  - the MetaMask/Coinbase predicates;
  - the Coinbase RPC choice;
  - the `window.wallet`/`window.web3Provider` singletons;
  - the `accountsChanged`/`chainChanged` handlers and disconnect;
  - the shape of `connectWallet`'s result;
- the WalletConnect handlers of `mobile/index.js`, the EIP-191 "personal_sign" framing
  of `encodePersonalMessage`, and the login message of `signMessage`.

Layout:

- `app_state.dfy` (module `AppState`):
  - value types;
  - class `Store` (`store.state`);
  - class `Window` (the browser globals);
  - the helpers shared by both wallet kinds.
- `text.dfy` (module `Text`): decimal text, UTF-8 and `0x` hexadecimal, with their round trips.
- `connect_tools.dfy` (module `ConnectTools`).
- `window_wallet.dfy` (module `WindowWallet`).
- `mobile_wallet.dfy` (module `MobileWallet`).

Conventions:

- JavaScript `null` and `undefined` are both `None`. "## Left out" lists the members where the source tells them apart.
- A string's truthiness is `Truthy` (present and non-empty).
- Reading a property of `null` becomes the outcome `Thrown(TypeError)`.
- "now" is an integer number of milliseconds passed in.
- Store actions (`config`, `refreshtoken`, `loginProcessFull`, `loginBackendUserFull`, `logoutBackendUser`, `logoutWalletUser`) are recorded as `Dispatch` events in `Store.effects`. Their results are parameters: a `FetchOutcome` is how an awaited `config` action settles (the config it leaves, or its rejection, which leaves the config as it was), `refreshed` is how `refreshtoken` settles, and `LoginOutcome` is what a login returned.
- Browser side effects, such as clearing a timer, reloading, a warning dialog or starting an SDK, are recorded as `Effect` events too.
- Foreign SDK answers are parameters: the accounts, the chain id, the user's wallet choice, and the providers and instances the SDKs would construct.
- Event handlers run synchronously, to completion.

## Model

| member | source | states |
|---|---|---|
| ConnectTools.WholeSecond | web3/wallet/connectTools.js:217-218 | `Date.parse(new Date(ms))` floors a time to its second: a multiple of 1000, at most `ms` and within a second of it |
| ConnectTools.CheckUserIsLogin | web3/wallet/connectTools.js:214-226 | false when `expire` is null; otherwise true iff the token is present, the backend coinbase is non-empty and the expiry minus the clock, both floored to the second, exceeds `defaultTime` (strict) |
| ConnectTools.LoginMarginWholeExpiry | web3/wallet/connectTools.js:214-226 | at the 30 s margin and a whole-second expiry, the test is the plain `expire - now > 30000` |
| ConnectTools.IsCurrentWalletUserToken | web3/wallet/connectTools.js:227-229 | throws exactly when there is no user; otherwise compares the backend coinbase with `user.coinbase` |
| ConnectTools.RefreshTokenDecision | web3/wallet/connectTools.js:13-23 | a refresh happens iff `now < expire < now + 300000` and the backend coinbase equals `user.coinbase`; the check throws iff the window holds and there is no user |
| ConnectTools.CheckIsRefreshToken | web3/wallet/connectTools.js:13-23 | dispatches `refreshtoken` exactly on a refresh decision and then settles as that action does; throws a TypeError when the window holds without a user; otherwise resolves and the store is unchanged |
| ConnectTools.RefreshPrecedesLogout | web3/wallet/connectTools.js:13-23 | a session with at least 31 s but less than 5 min left is still logged in and is refreshed |
| ConnectTools.IsUserLocked | web3/wallet/connectTools.js:197-202 | true iff a user exists and is locked |
| ConnectTools.CheckNetworkForOper | web3/wallet/connectTools.js:204-206 | true iff the wallet's network id is set and equals the chain id |
| ConnectTools.CheckUserIsLoginBaseWallet | web3/wallet/connectTools.js:208-212 | implies checkUserIsLogin; true iff logged in and the non-empty backend coinbase equals the wallet coinbase |
| ConnectTools.WalletUserIsConnected | web3/wallet/connectTools.js:175-185 | true iff the wallet reports a connection and the store's account is connected |
| ConnectTools.CheckChainOperEnabled | web3/wallet/connectTools.js:186-196 | true iff logged in on the wallet, wallet and account connected, and not locked; a locked user never passes |
| ConnectTools.AfterLogin | web3/wallet/connectTools.js:47-63 | the login is dispatched, and the step resolves iff the login returned no error and the user is not locked afterwards |
| ConnectTools.ChainOperStep | web3/wallet/connectTools.js:38-87 | resolves at once when enabled; runs the full login when wallet or account is disconnected; runs the backend login with the wallet coinbase when only the backend session differs; otherwise rejects exactly when locked; never resolves without being enabled or logging in |
| ConnectTools.ChainOperStepFinalBranchRejects | web3/wallet/connectTools.js:65-70 | when both login checks pass but the step is not enabled, the user is locked and the step rejects with the alert |
| ConnectTools.BackendUserOperStep | web3/wallet/connectTools.js:94-102 | resolves when the backend login is valid; otherwise runs checkChainOperStep |
| ConnectTools.BackendCheckIsWeaker | web3/wallet/connectTools.js:94-102 | whenever checkChainOperStep resolves without a login, checkBackendUserOperStep resolves too |
| ConnectTools.CheckChainOperEnable | web3/wallet/connectTools.js:24-31 | never returns false: true iff the step resolved, and a rejection propagates |
| ConnectTools.EmptyLastTimeout | web3/wallet/connectTools.js:230-235 | clears and nulls the heartbeat timer only when it is set; otherwise nothing changes |
| ConnectTools.LookupChain | web3/wallet/connectTools.js:273-280 | throws iff there is no config or no `block_chains`; otherwise finds exactly the entry for the chain |
| ConnectTools.NeedsConfigFetch | web3/wallet/connectTools.js:264-270 | no refetch iff a chain is cached and the record is set and equal to the chain id |
| ConnectTools.SetConfigChain | web3/wallet/connectTools.js:262-283 | refetches only when needed; a rejected `config` action is passed on with the config and the cache unchanged; otherwise caches `block_chains[c]` with record `c`, or null with record 0, and keeps the old cache when reading `block_chains` throws; the cache stays coherent with the config |
| ConnectTools.SetConfigChainCached | web3/wallet/connectTools.js:262-283 | after caching chain c, a second call with c fetches again only when c is 0 |
| ConnectTools.GetConfigChain | web3/wallet/connectTools.js:284-294 | fetches the config only when it is missing and passes on a rejected fetch; otherwise looks the chain up |
| ConnectTools.PayTokenAddress | web3/wallet/connectTools.js:301-308 | throws iff there is no config or no token with that id; otherwise the token's address |
| ConnectTools.IsWethAddress | web3/wallet/connectTools.js:316-320 | false exactly for the zero address |
| ConnectTools.IsWethToken | web3/wallet/connectTools.js:314-321 | fetches the config only when missing and passes on a rejected fetch; otherwise false exactly for the zero address and throws for an unknown token |
| ConnectTools.CloseLen | web3/wallet/connectTools.js:128 | the length up to the first `)`, with no `\` or `)` before it (`[^\\)]*` then `)`), or none when there is no such `)` |
| ConnectTools.StripGroups | web3/wallet/connectTools.js:128 | the result is never longer than the input |
| ConnectTools.StripGroupsLeavesNoGroup | web3/wallet/connectTools.js:128 | no `( … )` group is left after the replacement |
| ConnectTools.StripGroupsOfNoGroup | web3/wallet/connectTools.js:128 | a symbol without groups is left unchanged |
| ConnectTools.StripGroupsIdempotent | web3/wallet/connectTools.js:128 | the replacement applied twice equals the replacement applied once |
| ConnectTools.StripKeepsUnclosed | web3/wallet/connectTools.js:128 | stripping never creates a closing `)` where none was |
| ConnectTools.CloseLenPrepend | web3/wallet/connectTools.js:128 | a character other than `)` and `\` in front does not change whether a group closes |
| ConnectTools.FindCurrencyFrom | web3/wallet/connectTools.js:125 | finds the first contract with `contract_type === 1`, or none |
| ConnectTools.NetworkFor | web3/wallet/connectTools.js:121-137 | copies chain id, name, RPC and explorer; coin name and stripped symbol come from the first type-1 contract, and are empty without one |
| ConnectTools.NetworkSymbolHasNoGroup | web3/wallet/connectTools.js:124-128 | the symbol offered to the wallet has no `( … )` group |
| ConnectTools.SwitchNetworkChain | web3/wallet/connectTools.js:326-344 | a success is returned; a rejection with code 4001 or "User rejected the request." is returned with no add attempt; any other failure returns the add request's outcome |
| ConnectTools.ChangeNetworkForOper | web3/wallet/connectTools.js:121-163 | asks the wallet to switch to the chain's network record (stripped symbol, no group left) exactly when the dialog is confirmed; false unless confirmed; true iff the switch result carries no message; a user rejection with a message gives false |
| ConnectTools.CheckAndChangeNetwork | web3/wallet/connectTools.js:108-119 | true at once on the right network, with no switch request; otherwise looks the chain up (fetching when needed, and passing on a rejected fetch), throws for an unknown chain, and else runs the switch dialog for that chain and returns its result and request |
| ConnectTools.GetConnector | web3/wallet/connectTools.js:164-170 | WalletConnect iff on a phone without an injected provider |
| AppState.ClassifyAccounts | web3/wallet/web3/index.js:151-157 | an empty list, the same first account, or a new first account, exactly as the list and the stored coinbase dictate |
| AppState.UnknownNetworkWarning | web3/wallet/web3/index.js:169-173 | a warning iff `block_chains` exists and lacks the chain |
| WindowWallet.RpcDict | web3/wallet/web3/index.js:26-32 | exactly chains 1, 5 and 80001, with their URLs |
| WindowWallet.IsMetaMask | web3/wallet/web3/index.js:244-246 | a MetaMask provider while MetaMask is chosen |
| WindowWallet.IsCoinBase | web3/wallet/web3/index.js:247-249 | a non-MetaMask provider while Coinbase Wallet is chosen; never together with isMetaMask |
| WindowWallet.IsWalletConnect | web3/wallet/web3/index.js:250-252 | true iff WalletConnect is the chosen wallet |
| WindowWallet.MatchesByWalletType | web3/wallet/web3/index.js:219 | which candidates each wallet type accepts; none for other types |
| WindowWallet.LastMatch | web3/wallet/web3/index.js:218-223 | a provider it picks is in the list and matches |
| WindowWallet.LastMatchSpec | web3/wallet/web3/index.js:218-223 | the pick is none iff no provider matches, and otherwise the matching provider with no match after it |
| WindowWallet.LastMatchingProvider | web3/wallet/web3/index.js:229-234 | the `forEach` loop leaves the last matching provider, or none |
| WindowWallet.WindowProviderLookup | web3/wallet/web3/index.js:204-243 | null without `window.ethereum`; a cached provider is returned unchanged; null on the desktop without a wallet type; with a providers list, the last match; the result is cached |
| WindowWallet.CurrentLookup | web3/wallet/web3/index.js:198-203 | the WalletConnect provider (stored or newly built and stored) for WalletConnect, otherwise the window provider |
| WindowWallet.CurrentLookupStable | web3/wallet/web3/index.js:210-212 | a second lookup from the state the first left returns the same provider and changes nothing |
| WindowWallet.GetWindowEthereumProvider | web3/wallet/web3/index.js:204-243 | returns and stores what WindowProviderLookup gives, and sets `selectedProvider` on the phone |
| WindowWallet.GetWalletConnectProvider | web3/wallet/web3/index.js:253-291 | reuses the stored provider; otherwise stores the new one |
| WindowWallet.GetCurrentEthereum | web3/wallet/web3/index.js:198-203 | the provider and new state CurrentLookup gives |
| WindowWallet.IsConnected | web3/wallet/web3/index.js:292-294 | true iff there is a current provider and it reports a connection |
| WindowWallet.GetWeb3 | web3/wallet/web3/index.js:317-329 | null when there is no connected provider; otherwise the existing `window.wallet`, or one built once over the current provider |
| WindowWallet.GetWeb3Provider | web3/wallet/web3/index.js:303-316 | the same rule for `window.web3Provider` |
| WindowWallet.CoinbaseTarget | web3/wallet/web3/index.js:33-50 | nothing unless Coinbase Wallet is chosen; chain = networkId, or 1 when null; a provider only when that chain is non-zero and has an RPC URL |
| WindowWallet.InstalledEthereum | web3/wallet/web3/index.js:50-57 | `window.ethereum` becomes the SDK provider only when it was started, enabled and absent; otherwise it is unchanged |
| WindowWallet.EnableCoinbase | web3/wallet/web3/index.js:33-59 | starts the SDK on the chosen chain and URL; rejects exactly when a started provider's `enable()` rejects; sets `window.ethereum` only after a successful enable and only when it was absent |
| WindowWallet.DisconnectedChanged | web3/wallet/web3/index.js:186-190 | clears the wallet data and clears and nulls the timer only when set |
| WindowWallet.ProviderDisconnect | web3/wallet/web3/index.js:193-195 | `disconnect()` is called iff there is a provider and it is not MetaMask |
| WindowWallet.DisconnectWallet | web3/wallet/web3/index.js:191-197 | disconnects a non-MetaMask provider; when that `disconnect()` rejects, the rejection is passed on and the wallet data and the timer are kept; otherwise both are cleared |
| WindowWallet.AccountsChanged | web3/wallet/web3/index.js:149-164 | empty list disconnects as DisconnectWallet does and passes on its rejection; same account changes nothing; new account sets the coinbase, and logs out and reloads only when the account was connected |
| WindowWallet.ChainChanged | web3/wallet/web3/index.js:165-185 | throws without config; otherwise warns iff `block_chains` lacks the chain, sets the network id, leaves the chain cache as setConfigChain does (entry and id, null and 0, or unchanged when the lookup throws or the `config` action rejects, which does not stop the handler), starts Coinbase (a rejected enable does not stop the handler), and clears the provider and both singletons |
| WindowWallet.ShapeConnectResult | web3/wallet/web3/index.js:125-130 | isConnected iff the coinbase is non-empty, and the missing-address error exactly when not connected |
| WindowWallet.ConnectWallet | web3/wallet/web3/index.js:62-144 | "not installed" without `window.ethereum`; the wallet type is cleared first when not connected and must be chosen where several wallets exist; a rejected Coinbase enable ends in the catch block, so a connected result never follows one; a connected result carries the shaped fields and a cached chain |
| MobileWallet.FirstAccount | web3/wallet/mobile/index.js:71 | `accounts[0]`, or none for an empty list |
| MobileWallet.SessionOf | web3/wallet/mobile/index.js:70-77 | network id = chain id, wallet type "WalletConnect", isConnected iff the first account is non-empty |
| MobileWallet.IsConnected | web3/wallet/mobile/index.js:144-146 | false without a connector, otherwise `connector.connected` |
| MobileWallet.KillEffects | web3/wallet/mobile/index.js:106-112 | `killSession` iff a connector exists |
| MobileWallet.DisconnectWallet | web3/wallet/mobile/index.js:106-112 | ends the session only when a connector exists; nothing else changes |
| MobileWallet.ConnectWallet | web3/wallet/mobile/index.js:12-103 | stores the connector; creates a session when not connected; when already connected, commits network id and coinbase and resolves with SessionOf |
| MobileWallet.OnConnect | web3/wallet/mobile/index.js:65-78 | rethrows an error; otherwise commits network id and coinbase and resolves with SessionOf |
| MobileWallet.OnDisconnect | web3/wallet/mobile/index.js:81-90 | rethrows an error; otherwise nulls coinbase, address and connector and logs the wallet user out |
| MobileWallet.SessionUpdate | web3/wallet/mobile/index.js:33-62 | rethrows an error; empty accounts disconnect; a new account sets the coinbase (logout and reload when connected) and leaves the network alone; the same account throws without config, and otherwise warns on an unknown chain, sets the network id and leaves the chain cache as setConfigChain does (entry and id, null and 0, or unchanged when the lookup throws or the `config` action rejects, which does not stop the handler) |
| MobileWallet.PersonalMessageBytes | web3/wallet/mobile/index.js:116-122 | the framed bytes start with 0x19 and end with the data |
| MobileWallet.EncodePersonalMessage | web3/wallet/mobile/index.js:114-124 | `0x` followed by two hexadecimal digits per framed byte |
| MobileWallet.PrefixIsAscii | web3/wallet/mobile/index.js:118 | the frame text is ASCII and its fixed part is 26 characters |
| MobileWallet.PersonalMessageLayout | web3/wallet/mobile/index.js:114-124 | the bytes are 0x19, "Ethereum Signed Message:\n", the decimal data length, then the data |
| MobileWallet.PersonalPrefixLength | web3/wallet/mobile/index.js:116-120 | the frame length depends on the data length only |
| MobileWallet.PersonalMessageInjective | web3/wallet/mobile/index.js:114-124 | different data never give the same framed bytes |
| MobileWallet.EncodePersonalMessageDecodes | web3/wallet/mobile/index.js:123 | the hexadecimal reads back to the framed bytes |
| MobileWallet.EncodePersonalMessageInjective | web3/wallet/mobile/index.js:114-124 | two messages share an encoding only when their UTF-8 bytes are equal |
| MobileWallet.UnixSeconds | web3/wallet/mobile/index.js:127 | `parseInt(ms/1000)`: truncates toward zero, within one second of ms/1000 |
| MobileWallet.LoginMessage | web3/wallet/mobile/index.js:127-132 | starts with the welcome text and a space, and something follows |
| MobileWallet.LoginMessageRoundTrip | web3/wallet/mobile/index.js:129-132 | the welcome text and a space, followed by the decimal seconds, which read back |
| MobileWallet.SignParams | web3/wallet/mobile/index.js:126-141 | throws without a connector; otherwise `[hex(message), coinbase]`, whose first element decodes to the message's UTF-8 bytes |
| Text.Decimal | web3/wallet/mobile/index.js:118 | `toString()` of a length: at least one digit, all digits, no leading zero |
| Text.ParseDecimalOfDecimal | web3/wallet/mobile/index.js:118 | the decimal text reads back to the number |
| Text.DecimalLengthMonotone | web3/wallet/mobile/index.js:118 | a larger number never has fewer digits |
| Text.IntText | web3/wallet/mobile/index.js:129-132 | decimal text of an integer, with `-` when negative |
| Text.IntTextRoundTrip | web3/wallet/mobile/index.js:129-132 | the integer text reads back to the integer |
| Text.Utf8 | web3/wallet/mobile/index.js:115-120 | one to four bytes per character; one byte, equal to the code, exactly for ASCII |
| Text.Utf8StringConcat | web3/wallet/mobile/index.js:116-121 | the encoding of a concatenation is the concatenation of the encodings |
| Text.Utf8StringAscii | web3/wallet/mobile/index.js:117-118 | an ASCII string encodes byte for byte |
| Text.ToHex | web3/wallet/mobile/index.js:123 | `0x` and two digits per byte |
| Text.FromHexBodyOfHexBody | web3/wallet/mobile/index.js:123 | the hex digits read back to the bytes |
| Text.HexRoundTrip | web3/wallet/mobile/index.js:123 | `0x` hexadecimal reads back to the bytes |
| Text.ToHexInjective | web3/wallet/mobile/index.js:123 | different bytes never give the same hexadecimal |

## Left out

- SDK code is not modelled: Web3, ethers `Web3Provider`, `WalletConnectProvider`, CoinbaseWalletSDK and the `@walletconnect/client` connector. What the model uses from it is passed in: the providers and connector, whether `enable()` resolves (for the Coinbase SDK provider and for the wallet's own provider), whether the provider's `disconnect()` resolves, the answers to `request`/`getChainId`/`getCoinbase`, and the instances built.
- `decodeLog` and `signMessage` in `web3/index.js` rely entirely on the Web3 SDK (`abi.decodeLog`, `toChecksumAddress`, `personal.sign`); they are not modelled.
- `connector.signPersonalMessage` is not modelled: MobileWallet.SignParams models only the parameters `signMessage` builds, and the signature the connector returns does not appear.
- `sendCustomRequest` and the window `switchNetworkChain`/`addNetworkChain` pass through to the SDK. Only their outcomes enter, as `RpcOutcome`.
- UI is recorded as effects or flags, not modelled: dialogs, toasts, i18n text, `console.log`, `location.reload`, `window.walletSelectFn` and the PUSH_LOG payload.
- `checkAllowTransfer` is not modelled. Its first step, `linkToWalletBrowser`, is UI that is not part of this model; its other steps are ChainOperStep, CheckChainOperEnable and CheckAndChangeNetwork.
- `getWalletAddress`, `hasEtherem` and `userIsConnected` read a single store field or global; the model reads that field directly.
- `walletIsConnected` asks the connector in use whether it is connected. It enters ChainOperStep as the `walletConnected` flag of `Gate`. Its two implementations are WindowWallet.IsConnected and MobileWallet.IsConnected.
- Asynchrony and promises are not modelled. Handlers and un-awaited calls (`setConfigChain` and `enableCoinbase` in `chainChanged`, `setConfigChain` in `session_update`) run to completion at once, so no interleaving is modelled.
- Event-listener registration (`addListenerEthereum`, `connector.on`) is not modelled. The handlers are the separate methods AccountsChanged, ChainChanged, SessionUpdate, OnConnect and OnDisconnect.
- Timers and `clearTimeout` are effect events only.
- The store mutations are not modelled. `WEB3 null` is taken to reset `web3` to no coinbase, address or network, an empty wallet type and not connected. The store module is not part of this model.
- Date parsing is not modelled as text: `expire` and `now` are integer milliseconds. `Date.parse(new Date(…))` in checkUserIsLogin is modelled by its effect, flooring to the second (ConnectTools.WholeSecond); an `expire` held as a date string is not modelled.
- `parseInt` is not modelled as text parsing. Chain ids arrive as integers, including the hex strings `chainChanged` receives. `parseInt(ms/1000)` is modelled as truncation; its exponent-notation behaviour on numbers of 1e21 and more is not.
- Connection-setup corners are not modelled: the `!connector` test in the mobile `connectWallet` (it cannot fail after `new`), and the try/catch around the SDK constructors in getWeb3/getWeb3Provider (no constructor failure is modelled).
- WindowWallet.ConnectWallet: the contract states the result and the wallet type, and that a connected result leaves the chain cached. It does not state the whole new store and window.
- WindowWallet.ConnectWallet: on a WalletConnect enable or an `eth_requestAccounts` failure, the result is one flag, `enabled`.
- ConnectTools.CheckUserIsLogin: an undefined token counts as absent here. The source tests `token !== null`, which an undefined token passes (web3/wallet/connectTools.js:224), so such a session is logged in there but not here.
- ConnectTools.IsCurrentWalletUserToken: a null coinbase and an undefined coinbase compare equal here. The source compares them with `===` (web3/wallet/connectTools.js:228), where they differ.
- ConnectTools.RefreshTokenDecision: inherits the same merge, so a missing backend coinbase with a missing user coinbase counts as a refresh here; the source refreshes there only when both are null or both are undefined.
- ConnectTools.PayTokenAddress: `payment_tokens` is always present here. A config without it throws in the source (web3/wallet/connectTools.js:305); here that config cannot be expressed.
- ConnectTools.NetworkFor: a chain's `Contracts` list and each contract's `symbol` are always present here. Where they are missing the source throws (web3/wallet/connectTools.js:124-128); here that chain cannot be expressed.
