/** mobile/index.js: the WalletConnect session used on phones without an injected
    wallet, its event handlers, and the personal-message encoding and login message. */
module MobileWallet {
  import opened AppState
  import opened Text
  import ConnectTools


  /** What a WalletConnect connection resolves with. */
  datatype Session = Session(networkId: int, coinbase: Option<string>, walletType: string, isConnected: bool)

  function FirstAccount(accounts: seq<string>): (c: Option<string>)
    ensures c.Some? <==> |accounts| > 0
    ensures c.Some? ==> c.value == accounts[0]
  {
    if |accounts| > 0 then Some(accounts[0]) else None
  }

  /** The result the `connect` handler and the already-connected branch resolve with. */
  function SessionOf(chainId: int, accounts: seq<string>): (s: Session)
    ensures s.networkId == chainId && s.walletType == WalletConnectType
    ensures s.coinbase.Some? <==> |accounts| > 0
    ensures s.coinbase.Some? ==> s.coinbase.value == accounts[0]
    ensures s.isConnected <==> |accounts| > 0 && accounts[0] != ""
  {
    var coinbase := FirstAccount(accounts);
    Session(chainId, coinbase, WalletConnectType, Truthy(coinbase))
  }

  /** isConnected. */
  function IsConnected(connector: Option<Connector>): (r: bool)
    ensures connector.None? ==> !r
    ensures connector.Some? ==> (r <==> connector.value.connected)
  {
    if connector.Some? then connector.value.connected else false
  }

  /** The `killSession` call of disconnectWallet. */
  function KillEffects(connector: Option<Connector>): (e: seq<Effect>)
    ensures e != [] <==> connector.Some?
    ensures connector.Some? ==> e == [KillSession(connector.value.id)]
  {
    if connector.Some? then [KillSession(connector.value.id)] else []
  }

  /** disconnectWallet: ends the session when there is one. */
  method DisconnectWallet(st: Store)
    modifies st`effects
    ensures st.effects == old(st.effects) + KillEffects(st.connector)
  {
    var connector := st.connector;
    if connector.Some? {
      st.effects := st.effects + [KillSession(connector.value.id)];
    }
  }

  /** connectWallet: stores the new connector `c`, asks for a session when it is not yet
      connected, and resolves at once only when it already is. Otherwise the result
      comes from the `connect` handler (OnConnect). */
  method ConnectWallet(st: Store, c: Connector) returns (r: Option<Session>)
    modifies st`connector, st`effects, st`web3
    ensures st.connector == Some(c)
    ensures st.effects == old(st.effects) + (if c.connected then [] else [CreateSession(c.id)])
    ensures c.connected ==>
      r == Some(SessionOf(c.chainId, c.accounts))
      && st.web3 == old(st.web3).(networkId := Some(c.chainId), coinbase := FirstAccount(c.accounts))
    ensures !c.connected ==> r.None? && st.web3 == old(st.web3)
  {
    st.connector := Some(c);
    if !c.connected {
      st.effects := st.effects + [CreateSession(c.id)];
    }
    if c.connected {
      st.web3 := st.web3.(networkId := Some(c.chainId));
      st.web3 := st.web3.(coinbase := FirstAccount(c.accounts));
      r := Some(SessionOf(c.chainId, c.accounts));
    } else {
      r := None;
    }
  }

  /** The `connect` handler; an error handed to it is rethrown. */
  method OnConnect(st: Store, error: bool, chainId: int, accounts: seq<string>) returns (r: Outcome<Session>)
    modifies st`web3
    ensures error ==> r == Thrown(HandlerError) && st.web3 == old(st.web3)
    ensures !error ==>
      r == Done(SessionOf(chainId, accounts))
      && st.web3 == old(st.web3).(networkId := Some(chainId), coinbase := FirstAccount(accounts))
  {
    if error {
      return Thrown(HandlerError);
    }
    st.web3 := st.web3.(networkId := Some(chainId));
    st.web3 := st.web3.(coinbase := FirstAccount(accounts));
    r := Done(SessionOf(chainId, accounts));
  }

  /** The `disconnect` handler. */
  method OnDisconnect(st: Store, error: bool) returns (r: Outcome<()>)
    modifies st`web3, st`connector, st`effects
    ensures error ==>
      r == Thrown(HandlerError) && st.web3 == old(st.web3)
      && st.connector == old(st.connector) && st.effects == old(st.effects)
    ensures !error ==>
      r == Done(()) && st.web3 == old(st.web3).(coinbase := None, address := None)
      && st.connector == None && st.effects == old(st.effects) + [Dispatch(LogoutWalletUser)]
  {
    if error {
      return Thrown(HandlerError);
    }
    st.web3 := st.web3.(coinbase := None);
    st.web3 := st.web3.(address := None);
    st.connector := None;
    st.effects := st.effects + [Dispatch(LogoutWalletUser)];
    r := Done(());
  }

  /** The `session_update` handler; `fetched` is how the `config` action of its
      setConfigChain settles. */
  method SessionUpdate(st: Store, error: bool, chainId: int, accounts: seq<string>, fetched: FetchOutcome)
    returns (r: Outcome<AccountsEvent>)
    modifies st`web3, st`effects, st`config, st`configChain, st`chainIdRecord
    ensures error ==>
      r == Thrown(HandlerError) && st.web3 == old(st.web3) && st.effects == old(st.effects)
      && st.config == old(st.config) && st.configChain == old(st.configChain) && st.chainIdRecord == old(st.chainIdRecord)
    ensures !error ==> r.Done? ==> r.value == ClassifyAccounts(old(st.web3.coinbase), accounts)
    ensures !error && |accounts| == 0 ==>
      r == Done(AccountsEmpty) && st.web3 == old(st.web3)
      && st.effects == old(st.effects) + KillEffects(st.connector)
      && st.config == old(st.config) && st.configChain == old(st.configChain) && st.chainIdRecord == old(st.chainIdRecord)
    ensures !error && ClassifyAccounts(old(st.web3.coinbase), accounts).NewAccount? ==>
      r.Done? && st.web3 == old(st.web3).(coinbase := Some(accounts[0]))
      && st.effects == old(st.effects) + (if old(st.web3.isConnected) then [Dispatch(LogoutBackendUser), Reload] else [])
      && st.config == old(st.config) && st.configChain == old(st.configChain) && st.chainIdRecord == old(st.chainIdRecord)
    ensures !error && ClassifyAccounts(old(st.web3.coinbase), accounts) == SameAccount && old(st.config).None? ==>
      r == Thrown(TypeError) && st.web3 == old(st.web3) && st.effects == old(st.effects)
      && st.config == old(st.config) && st.configChain == old(st.configChain) && st.chainIdRecord == old(st.chainIdRecord)
    ensures !error && ClassifyAccounts(old(st.web3.coinbase), accounts) == SameAccount && old(st.config).Some? ==>
      var fetch := ConnectTools.NeedsConfigFetch(old(st.configChain), old(st.chainIdRecord), chainId);
      r == Done(SameAccount)
      && st.web3 == old(st.web3).(networkId := Some(chainId))
      && st.effects == old(st.effects) + UnknownNetworkWarning(old(st.config).value, chainId) + FetchEffects(fetch)
      && ConnectTools.ConfigChainAfter(old(st.config), old(st.configChain), old(st.chainIdRecord), chainId, fetched,
                                       st.config, st.configChain, st.chainIdRecord)
      && (!(fetch && fetched.Thrown?) && ConnectTools.LookupChain(st.config, chainId).Done? ==>
            ConnectTools.ChainCacheCoherent(st.config, st.configChain, st.chainIdRecord))
  {
    if error {
      return Thrown(HandlerError);
    }
    r := Done(ClassifyAccounts(st.web3.coinbase, accounts));
    if |accounts| == 0 {
      DisconnectWallet(st);
      return;
    }
    var coinbase := accounts[0];
    if st.web3.coinbase != Some(coinbase) {
      st.web3 := st.web3.(coinbase := Some(coinbase));
      if st.web3.isConnected {
        st.effects := st.effects + [Dispatch(LogoutBackendUser), Reload];
      }
    } else {
      if st.config.None? {
        return Thrown(TypeError);
      }
      var config := st.config.value;
      if config.blockChains.Some? && chainId !in config.blockChains.value {
        st.effects := st.effects + [NetworkWarning(chainId)];
      }
      st.web3 := st.web3.(networkId := Some(chainId));
      // not awaited: a rejected `config` action does not stop the handler
      var _ := ConnectTools.SetConfigChain(st, chainId, fetched);
    }
  }

  // ----- Personal messages (EIP-191 version 0x45) -----------------------------------

  /** The text in front of the decimal length: byte 0x19, then "Ethereum Signed Message:\n". */
  const PersonalPrefix := "\U{19}Ethereum Signed Message:\n"

  /** The bytes encodePersonalMessage hashes for signing: the prefix and the decimal
      byte length of `data`, as UTF-8, then `data` itself. */
  function PersonalMessageBytes(data: seq<byte>): (m: seq<byte>)
    ensures |m| > |data| && m[0] == 0x19
    ensures m[|m| - |data|..] == data
  {
    var t := PersonalPrefix + Decimal(|data|);
    assert t[0] == '\U{19}';
    Utf8String(t) + data
  }

  /** encodePersonalMessage: the framed UTF-8 bytes of `msg`, as `0x` hexadecimal. */
  function EncodePersonalMessage(msg: string): (s: string)
    ensures |s| == 2 + 2 * |PersonalMessageBytes(Utf8String(msg))|
    ensures s[..2] == "0x"
  {
    ToHex(PersonalMessageBytes(Utf8String(msg)))
  }

  lemma PrefixIsAscii(n: nat)
    ensures IsAscii(PersonalPrefix + Decimal(n))
    ensures |PersonalPrefix| == 26
  {
    var d := Decimal(n);
    assert forall i :: 0 <= i < |d| ==> d[i] as int < 0x80;
  }

  /** The layout of the framed message: 0x19, the 25 ASCII characters of
      "Ethereum Signed Message:\n", the decimal digits of the data length, the data. */
  lemma PersonalMessageLayout(data: seq<byte>)
    ensures var m := PersonalMessageBytes(data);
      var k := 26 + |Decimal(|data|)|;
      |m| == k + |data|
      && m[0] == 0x19
      && (forall i :: 1 <= i < 26 ==> m[i] == PersonalPrefix[i] as int)
      && (forall i :: 26 <= i < k ==> m[i] == Decimal(|data|)[i - 26] as int)
      && m[k..] == data
  {
    var t := PersonalPrefix + Decimal(|data|);
    PrefixIsAscii(|data|);
    Utf8StringAscii(t);
    var m := PersonalMessageBytes(data);
    var k := 26 + |Decimal(|data|)|;
    assert m[..k] == Utf8String(t);
    assert forall i :: 0 <= i < k ==> m[i] == t[i] as int;
  }

  /** The length of the frame depends on the data length only. */
  lemma PersonalPrefixLength(data: seq<byte>)
    ensures |PersonalMessageBytes(data)| - |data| == 26 + |Decimal(|data|)|
  {
    PersonalMessageLayout(data);
  }

  /** Different data never give the same framed message. */
  lemma PersonalMessageInjective(a: seq<byte>, b: seq<byte>)
    requires PersonalMessageBytes(a) == PersonalMessageBytes(b)
    ensures a == b
  {
    PersonalMessageLayout(a);
    PersonalMessageLayout(b);
    if |a| < |b| {
      DecimalLengthMonotone(|a|, |b|);
      assert false;
    } else if |b| < |a| {
      DecimalLengthMonotone(|b|, |a|);
      assert false;
    }
  }

  /** Reading the hexadecimal back gives the framed bytes, and the encoding of two byte
      strings agrees only when they are the same. */
  lemma EncodePersonalMessageDecodes(msg: string)
    ensures FromHex(EncodePersonalMessage(msg)) == Some(PersonalMessageBytes(Utf8String(msg)))
  {
    HexRoundTrip(PersonalMessageBytes(Utf8String(msg)));
  }

  lemma EncodePersonalMessageInjective(m1: string, m2: string)
    requires EncodePersonalMessage(m1) == EncodePersonalMessage(m2)
    ensures Utf8String(m1) == Utf8String(m2)
  {
    ToHexInjective(PersonalMessageBytes(Utf8String(m1)), PersonalMessageBytes(Utf8String(m2)));
    PersonalMessageInjective(Utf8String(m1), Utf8String(m2));
  }

  // ----- The login message of signMessage -------------------------------------------

  const Welcome := "Welcome. Login PlayTop NFT Market. This is completely secure and doesn't cost anything!"

  /** `parseInt(ms / 1000)`: the quotient truncated toward zero. */
  function UnixSeconds(ms: int): (s: int)
    ensures ms >= 0 ==> 0 <= s && s * 1000 <= ms < s * 1000 + 1000
    ensures ms < 0 ==> s <= 0 && s * 1000 - 1000 < ms <= s * 1000
  {
    if ms >= 0 then ms / 1000 else -((-ms) / 1000)
  }

  /** The login message for the time `nowMs`. */
  function LoginMessage(nowMs: int): (m: string)
    ensures |m| > |Welcome| + 1 && m[..|Welcome| + 1] == Welcome + " "
  {
    Welcome + " " + IntText(UnixSeconds(nowMs))
  }

  /** The seconds a login message carries, read back. */
  function LoginMessageSeconds(m: string): Option<int> {
    var k := |Welcome| + 1;
    if |m| >= k && m[..k] == Welcome + " " then Some(ParseInt(m[k..])) else None
  }

  lemma LoginMessageRoundTrip(nowMs: int)
    ensures LoginMessageSeconds(LoginMessage(nowMs)) == Some(UnixSeconds(nowMs))
  {
    var m := LoginMessage(nowMs);
    var k := |Welcome| + 1;
    assert m[..k] == Welcome + " ";
    assert m[k..] == IntText(UnixSeconds(nowMs));
    IntTextRoundTrip(UnixSeconds(nowMs));
  }

  /** The parameters signMessage hands to `signPersonalMessage`; with no connector the
      call throws. */
  function SignParams(connector: Option<Connector>, nowMs: int, coinbase: string): (r: Outcome<seq<string>>)
    ensures r.Thrown? <==> connector.None?
    ensures r.Done? ==> |r.value| == 2 && r.value[1] == coinbase
    ensures r.Done? ==> FromHex(r.value[0]) == Some(Utf8String(LoginMessage(nowMs)))
  {
    var message := LoginMessage(nowMs);
    HexRoundTrip(Utf8String(message));
    if connector.None? then Thrown(TypeError) else Done([ToHex(Utf8String(message)), coinbase])
  }
}
