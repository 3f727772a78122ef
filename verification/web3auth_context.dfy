/** The session context: one state record (wallet session, user identity, marketplace
    contract handles, the plan being drafted) and the operations that update it. The
    wallet SDK and the chain client are outside the model; what they return is passed in. */
module Web3AuthContext {
  import opened Types
  import opened Numerals
  import opened Parsers

  const SUBS_CONTRACT_ADDRESS := "0xD07ee34Ad20F50861ff4A72D09677F42af6E933f"
  const RPC_TARGET := "https://goerli-rollup.arbitrum.io/rpc"

  datatype ChainConfig = ChainConfig(
    chainNamespace: string,
    chainId: string,
    rpcTarget: string,
    displayName: string,
    blockExplorer: string,
    ticker: string,
    tickerName: string)

  /** The options the wallet SDK instance is created with. */
  datatype Web3AuthOptions = Web3AuthOptions(clientId: string, web3AuthNetwork: string, chainConfig: ChainConfig)

  /** The opaque provider object the wallet SDK's `connect()` hands back. */
  datatype WalletHandle = WalletHandle(id: nat)

  /** `ethers.providers.Web3Provider` wrapped around a wallet handle. */
  datatype Provider = Web3Provider(wallet: WalletHandle)

  /** Who sends the contract's calls: a read-only JSON-RPC endpoint or the wallet's signer. */
  datatype Runner = JsonRpc(url: string) | Signer(wallet: WalletHandle)

  datatype Contract = Contract(address: string, runner: Runner)

  /** The profile `getUserInfo()` returns; both fields may be missing. */
  datatype UserInfo = UserInfo(name: Option<string>, email: Option<string>)

  datatype SessionState = SessionState(
    web3Auth: Web3AuthOptions,
    provider: Option<Provider>,
    isConnected: Option<bool>,
    address: Option<string>,
    username: Option<string>,
    email: Option<string>,
    subsContract: Option<Contract>,
    connectedSubsContract: Option<Contract>,
    plan: Option<Plan>)

  /** The SDK options of the initial state; `CLIENT_ID ?? ""` where the client id comes from
      the environment. */
  function InitialOptions(clientIdEnv: Option<string>): (o: Web3AuthOptions)
    ensures clientIdEnv.Some? ==> o.clientId == clientIdEnv.value
    ensures clientIdEnv.None? ==> o.clientId == ""
    ensures o.chainConfig.rpcTarget == RPC_TARGET && o.chainConfig.chainId == "0x66eed"
  {
    Web3AuthOptions(
      clientId := if clientIdEnv.Some? then clientIdEnv.value else "",
      web3AuthNetwork := "sapphire_devnet",
      chainConfig := ChainConfig(
        chainNamespace := "eip155",
        chainId := "0x66eed",
        rpcTarget := RPC_TARGET,
        displayName := "Arbitrum Goerli",
        blockExplorer := "https://goerli.arbiscan.io/",
        ticker := "ETH",
        tickerName := "Arbitrum Goerli Ether"))
  }

  /** What every reachable state satisfies: a connected session has a provider, an address
      and a contract handle bound to that provider's signer, and both contract handles point
      at the marketplace contract. */
  predicate WellFormed(s: SessionState) {
    && (Truthy(s.isConnected) ==>
          && s.provider.Some? && s.address.Some? && s.connectedSubsContract.Some?
          && s.connectedSubsContract.value.runner == Signer(s.provider.value.wallet))
    && (s.subsContract.Some? ==> s.subsContract.value.address == SUBS_CONTRACT_ADDRESS)
    && (s.connectedSubsContract.Some? ==>
          s.connectedSubsContract.value.address == SUBS_CONTRACT_ADDRESS
          && s.connectedSubsContract.value.runner.Signer?)
  }

  class Web3AuthProvider {
    var state: SessionState

    /** `useState(INITIAL_STATE)`: only the SDK options are set. */
    constructor (clientIdEnv: Option<string>)
      ensures state == SessionState(InitialOptions(clientIdEnv), None, None, None, None, None, None, None, None)
      ensures WellFormed(state)
    {
      state := SessionState(InitialOptions(clientIdEnv), None, None, None, None, None, None, None, None);
    }

    /** `initWeb3Auth`: awaits the SDK's `initModal()` and changes no state. */
    method InitWeb3Auth(initModal: Call<()>) returns (c: Completion)
      ensures initModal.Returns? ==> c == Resolved
      ensures initModal.Throws? ==> c == Rejected(initModal.reason)
    {
      c := if initModal.Returns? then Resolved else Rejected(initModal.reason);
    }

    /** `initProvider`: stores a read-only handle on the marketplace contract and keeps
        every other field. */
    method InitProvider()
      requires WellFormed(state)
      modifies this
      ensures state == old(state).(subsContract := Some(Contract(SUBS_CONTRACT_ADDRESS, JsonRpc(RPC_TARGET))))
      ensures WellFormed(state)
    {
      var subsContract := Contract(SUBS_CONTRACT_ADDRESS, JsonRpc(RPC_TARGET));
      state := state.(subsContract := Some(subsContract));
    }

    /** `connectWeb3Auth`: the three awaited SDK calls are `connect()`, `getUserInfo()` and the
        signer's `getAddress()`, in that order; a rejection of any of them propagates before
        anything is stored, and a null provider returns without storing anything. */
    method ConnectWeb3Auth(connect: Call<Option<WalletHandle>>, getUserInfo: Call<UserInfo>, getAddress: Call<string>)
      returns (c: Completion)
      requires WellFormed(state)
      modifies this
      ensures WellFormed(state)
      ensures connect.Throws? ==> c == Rejected(connect.reason) && state == old(state)
      ensures connect.Returns? && getUserInfo.Throws? ==> c == Rejected(getUserInfo.reason) && state == old(state)
      ensures connect == Returns(None) && getUserInfo.Returns? ==> c == Resolved && state == old(state)
      ensures connect.Returns? && connect.value.Some? && getUserInfo.Returns? && getAddress.Throws? ==>
        c == Rejected(getAddress.reason) && state == old(state)
      ensures connect.Returns? && connect.value.Some? && getUserInfo.Returns? && getAddress.Returns? ==>
        var wallet, info := connect.value.value, getUserInfo.value;
        && c == Resolved
        && state == old(state).(
             provider := Some(Web3Provider(wallet)),
             isConnected := Some(true),
             username := info.name,
             email := info.email,
             subsContract := Some(Contract(SUBS_CONTRACT_ADDRESS, Signer(wallet))),
             connectedSubsContract := Some(Contract(SUBS_CONTRACT_ADDRESS, Signer(wallet))),
             address := Some(getAddress.value))
    {
      if connect.Throws? {
        return Rejected(connect.reason);
      }
      if getUserInfo.Throws? {
        return Rejected(getUserInfo.reason);
      }
      if connect.value.None? {
        return Resolved;
      }
      var provider := Web3Provider(connect.value.value);
      var signer := Signer(provider.wallet);
      if getAddress.Throws? {
        return Rejected(getAddress.reason);
      }
      var subsContract := Contract(SUBS_CONTRACT_ADDRESS, signer);
      var connectedSubsContract := subsContract.(runner := signer);
      state := state.(
        provider := Some(provider),
        isConnected := Some(true),
        username := getUserInfo.value.name,
        email := getUserInfo.value.email,
        subsContract := Some(subsContract),
        connectedSubsContract := Some(connectedSubsContract),
        address := Some(getAddress.value));
      c := Resolved;
    }

    /** `getPlans`: with a contract handle, the plans `getAllPlans()` returned, mapped field by
        field exactly as the struct mapper maps them; without one, `undefined`. */
    function GetPlans(allPlans: seq<PlanStruct>): (r: Option<seq<Plan>>)
      reads this
      ensures r.None? <==> state.subsContract.None?
      ensures r.Some? ==> (|r.value| == |allPlans|
        && forall i :: 0 <= i < |allPlans| ==> r.value[i] == ParsePlanStruct(allPlans[i]))
    {
      if state.subsContract.Some? then
        Some(seq(|allPlans|, i requires 0 <= i < |allPlans| =>
          Plan(
            contentCreator := allPlans[i].contentCreator,
            expirationBlock := Str(ToDecimal(allPlans[i].expirationBlock)),
            planId := Some(ToDecimal(allPlans[i].planID)),
            paymentTokenAddress := allPlans[i].paymentTokenAddress,
            price := Str(ToDecimal(allPlans[i].price)),
            uri := allPlans[i].uri)))
      else
        None
    }

    /** `disconnectWeb3Auth`: after `logout()` resolves, only `isConnected` becomes false;
        address, profile and contract handles stay. A rejected logout propagates and leaves
        the session connected. */
    method DisconnectWeb3Auth(logout: Call<()>) returns (c: Completion)
      requires WellFormed(state)
      modifies this
      ensures WellFormed(state)
      ensures logout.Throws? ==> c == Rejected(logout.reason) && state == old(state)
      ensures logout.Returns? ==> c == Resolved && state == old(state).(isConnected := Some(false))
    {
      if logout.Throws? {
        return Rejected(logout.reason);
      }
      state := state.(isConnected := Some(false));
      c := Resolved;
    }

    /** `setPlanData`: stores the drafted plan and keeps every other field. */
    method SetPlanData(plan: Plan)
      requires WellFormed(state)
      modifies this
      ensures state == old(state).(plan := Some(plan))
      ensures WellFormed(state)
    {
      state := state.(plan := Some(plan));
    }
  }

  /** A successful connect followed by a successful disconnect leaves the session
      disconnected but still holding the identity and contract handles the connect stored. */
  method DisconnectKeepsIdentity(session: Web3AuthProvider, wallet: WalletHandle, info: UserInfo, address: string)
    requires WellFormed(session.state)
    modifies session
    ensures WellFormed(session.state) && !Truthy(session.state.isConnected)
    ensures session.state.address == Some(address)
    ensures session.state.username == info.name && session.state.email == info.email
    ensures session.state.connectedSubsContract == Some(Contract(SUBS_CONTRACT_ADDRESS, Signer(wallet)))
  {
    var connected := session.ConnectWeb3Auth(Returns(Some(wallet)), Returns(info), Returns(address));
    assert connected == Resolved;
    var disconnected := session.DisconnectWeb3Auth(Returns(()));
    assert disconnected == Resolved;
  }
}
