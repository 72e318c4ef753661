/** The decision logic of the FHEVM instance bootstrap: which chain the provider is on,
    whether that chain is served by a local mock (a Hardhat node) or by the relayer SDK,
    and whether the node's metadata is usable. The provider's RPC answers are inputs. */
module Fhevm {
  import opened Wrappers
  import opened JsNumber
  import opened JsString

  /** The three kinds of provider `createFhevmInstance` accepts. */
  datatype Provider = RpcUrl(url: string) | BrowserProvider | Eip1193Provider

  datatype FhevmError = FhevmError(code: string, message: string)

  /** A JavaScript value as returned by a JSON-RPC call. */
  datatype JsValue =
    | JUndefined
    | JNull
    | JBool(b: bool)
    | JNumber(n: Number)
    | JString(s: string)
    | JArray(items: seq<JsValue>)
    | JObject(properties: map<string, JsValue>)

  /** The outcome of one JSON-RPC request: a value, or a thrown error. */
  datatype RpcReply = Reply(value: JsValue) | RpcFailure

  /** The contract addresses a Hardhat FHEVM node reports through `fhevm_relayer_metadata`. */
  datatype NodeMetadata = NodeMetadata(aclAddress: string, inputVerifierAddress: string, kmsVerifierAddress: string)

  /** `getChainId`: the chain id as the network object reports it, or the EIP-1193
      `eth_chainId` answer decoded as hexadecimal. */
  function GetChainId(provider: Provider, networkChainId: int, eip1193ChainId: string): (r: Number)
    ensures provider.Eip1193Provider? ==> r == ParseInt(eip1193ChainId, 16)
    ensures !provider.Eip1193Provider? ==> r == Num(networkChainId)
  {
    if provider.Eip1193Provider? then ParseInt(eip1193ChainId, 16) else Num(networkChainId)
  }

  const LocalhostChainId := 31337
  const LocalhostRpcUrl := "http://localhost:8545"

  /** `{ 31337: "http://localhost:8545", ...(mockChains ?? {}) }`: the caller's entries win. */
  function MockTable(mockChains: Option<map<int, string>>): (table: map<int, string>)
    ensures table.Keys == {LocalhostChainId} + mockChains.GetOr(map[]).Keys
    ensures forall id :: id in mockChains.GetOr(map[]) ==> table[id] == mockChains.value[id]
    ensures LocalhostChainId !in mockChains.GetOr(map[]) ==> table[LocalhostChainId] == LocalhostRpcUrl
  {
    map[LocalhostChainId := LocalhostRpcUrl] + mockChains.GetOr(map[])
  }

  /** `{ isMock, chainId, rpcUrl }`; a mock result always carries a URL. */
  datatype ResolveResult = ResolveResult(isMock: bool, chainId: Number, rpcUrl: Option<string>)

  /** `resolve`: a chain is a mock chain when its id is a key of the merged table; a mock
      chain's URL is the caller's URL string unless that is empty, else the table's. */
  function Resolve(provider: Provider, chainId: Number, mockChains: Option<map<int, string>>): (r: ResolveResult)
    ensures r.chainId == chainId
    ensures r.isMock <==> chainId.Num? && chainId.value in MockTable(mockChains)
    ensures r.isMock && provider.RpcUrl? && provider.url != "" ==> r.rpcUrl == Some(provider.url)
    ensures r.isMock && !(provider.RpcUrl? && provider.url != "") ==> r.rpcUrl == Some(MockTable(mockChains)[chainId.value])
    ensures !r.isMock ==> r.rpcUrl == if provider.RpcUrl? then Some(provider.url) else None
  {
    var rpcUrl := if provider.RpcUrl? then Some(provider.url) else None;
    var table := MockTable(mockChains);
    if chainId.Num? && chainId.value in table then
      var url := if rpcUrl.None? || rpcUrl.value == "" then table[chainId.value] else rpcUrl.value;
      ResolveResult(true, chainId, Some(url))
    else
      ResolveResult(false, chainId, rpcUrl)
  }

  /** JavaScript truthiness. */
  predicate IsTruthy(v: JsValue) {
    match v
    case JUndefined => false
    case JNull => false
    case JBool(b) => b
    case JNumber(n) => !IsFalsy(n)
    case JString(s) => s != ""
    case JArray(_) => true
    case JObject(_) => true
  }

  /** `typeof v === "object"` (true of `null` as well). */
  predicate IsObjectType(v: JsValue) {
    v.JNull? || v.JArray? || v.JObject?
  }

  /** `name in v && typeof v[name] === "string"`. */
  predicate HasStringProperty(v: JsValue, name: string) {
    v.JObject? && name in v.properties && v.properties[name].JString?
  }

  /** The client-version test: a string that contains "hardhat" in any letter case. */
  predicate IsHardhatVersion(version: JsValue) {
    version.JString? && Includes(ToLower(version.s), "hardhat")
  }

  /** The shape check on the `fhevm_relayer_metadata` answer; `None` is `undefined`,
      also when the request threw. */
  function CheckMetadata(reply: RpcReply): (r: Option<NodeMetadata>)
    ensures r.Some? <==>
      && reply.Reply?
      && HasStringProperty(reply.value, "ACLAddress")
      && HasStringProperty(reply.value, "InputVerifierAddress")
      && HasStringProperty(reply.value, "KMSVerifierAddress")
    ensures r.Some? ==> r.value == NodeMetadata(
      reply.value.properties["ACLAddress"].s,
      reply.value.properties["InputVerifierAddress"].s,
      reply.value.properties["KMSVerifierAddress"].s)
  {
    match reply
    case RpcFailure => None
    case Reply(v) =>
      if !IsTruthy(v) || !IsObjectType(v) then None
      else if !HasStringProperty(v, "ACLAddress") then None
      else if !HasStringProperty(v, "InputVerifierAddress") then None
      else if !HasStringProperty(v, "KMSVerifierAddress") then None
      else Some(NodeMetadata(
        v.properties["ACLAddress"].s,
        v.properties["InputVerifierAddress"].s,
        v.properties["KMSVerifierAddress"].s))
  }

  function ClientVersionError(rpcUrl: string): FhevmError {
    FhevmError("WEB3_CLIENTVERSION_ERROR", "The URL " + rpcUrl + " is not reachable")
  }

  /** `tryFetchFHEVMHardhatNodeMetadata`: an unreachable node throws (the client-version
      call is outside the `try`); a node that is not Hardhat, or whose metadata has the wrong
      shape, gives `undefined`. */
  function TryFetchMetadata(rpcUrl: string, clientVersion: RpcReply, metadata: RpcReply): (r: Result<Option<NodeMetadata>, FhevmError>)
    ensures r.Failure? <==> clientVersion.RpcFailure?
    ensures r.Failure? ==> r.error == ClientVersionError(rpcUrl)
    ensures r.Success? && r.value.Some? <==>
      clientVersion.Reply? && IsHardhatVersion(clientVersion.value) && CheckMetadata(metadata).Some?
    ensures r.Success? && r.value.Some? ==> r.value == CheckMetadata(metadata)
  {
    match clientVersion
    case RpcFailure => Failure(ClientVersionError(rpcUrl))
    case Reply(version) =>
      if !IsHardhatVersion(version) then Success(None) else Success(CheckMetadata(metadata))
  }

  /** The `network` given to the relayer SDK. */
  datatype RelayerNetwork = NetworkUrl(url: string) | WindowEthereum | CallerEip1193

  datatype Instance =
    | MockInstance(rpcUrl: string, chainId: Number, metadata: NodeMetadata)
    | RelayerInstance(network: RelayerNetwork)

  /** What the relayer path depends on besides the provider: the ACL address of the SDK's
      Sepolia configuration, whether `isAddress` accepts it, and whether `window.ethereum` exists. */
  datatype RelayerEnvironment = RelayerEnvironment(aclAddress: string, aclAddressIsValid: bool, hasWindowEthereum: bool)

  /** The answers the provider and the node give during bootstrap. */
  datatype NodeReplies = NodeReplies(networkChainId: int, eip1193ChainId: string, clientVersion: RpcReply, relayerMetadata: RpcReply)

  /** The relayer path: reject an invalid ACL address, then pick the SDK's network. */
  function RelayerInstanceFor(provider: Provider, env: RelayerEnvironment): (r: Result<Instance, FhevmError>)
    ensures r.Failure? && r.error.code == "INVALID_ACL_ADDRESS" <==> !env.aclAddressIsValid
    ensures r.Failure? && r.error.code == "NO_ETHEREUM_PROVIDER" <==>
      env.aclAddressIsValid && provider.BrowserProvider? && !env.hasWindowEthereum
    ensures r.Success? <==> env.aclAddressIsValid && !(provider.BrowserProvider? && !env.hasWindowEthereum)
    ensures r.Success? ==> r.value.RelayerInstance?
    ensures r.Success? && provider.RpcUrl? ==> r.value.network == NetworkUrl(provider.url)
    ensures r.Success? && provider.BrowserProvider? ==> r.value.network == WindowEthereum
    ensures r.Success? && provider.Eip1193Provider? ==> r.value.network == CallerEip1193
  {
    if !env.aclAddressIsValid then Failure(FhevmError("INVALID_ACL_ADDRESS", "Invalid ACL address: " + env.aclAddress))
    else
      match provider
      case RpcUrl(url) => Success(RelayerInstance(NetworkUrl(url)))
      case BrowserProvider =>
        if env.hasWindowEthereum then Success(RelayerInstance(WindowEthereum))
        else Failure(FhevmError("NO_ETHEREUM_PROVIDER", "window.ethereum not available"))
      case Eip1193Provider => Success(RelayerInstance(CallerEip1193))
  }

  /** `createFhevmInstance`: a mock instance when the chain resolves as mock and the node
      is a Hardhat FHEVM node with valid metadata, the relayer SDK otherwise. */
  method CreateFhevmInstance(provider: Provider, mockChains: Option<map<int, string>>, replies: NodeReplies, env: RelayerEnvironment)
    returns (r: Result<Instance, FhevmError>)
    ensures var resolved := Resolve(provider, GetChainId(provider, replies.networkChainId, replies.eip1193ChainId), mockChains);
      && (r.Success? && r.value.MockInstance? <==>
            resolved.isMock && replies.clientVersion.Reply? && IsHardhatVersion(replies.clientVersion.value)
            && CheckMetadata(replies.relayerMetadata).Some?)
      && (r.Success? && r.value.MockInstance? ==>
            r.value == MockInstance(resolved.rpcUrl.value, resolved.chainId, CheckMetadata(replies.relayerMetadata).value))
      && (resolved.isMock && replies.clientVersion.RpcFailure? ==> r == Failure(ClientVersionError(resolved.rpcUrl.value)))
      && (!(resolved.isMock && replies.clientVersion.Reply? && IsHardhatVersion(replies.clientVersion.value)
            && CheckMetadata(replies.relayerMetadata).Some?)
          && !(resolved.isMock && replies.clientVersion.RpcFailure?)
          ==> r == RelayerInstanceFor(provider, env))
  {
    var chainId := GetChainId(provider, replies.networkChainId, replies.eip1193ChainId);
    var resolved := Resolve(provider, chainId, mockChains);
    if resolved.isMock {
      var fetched := TryFetchMetadata(resolved.rpcUrl.value, replies.clientVersion, replies.relayerMetadata);
      if fetched.Failure? {
        return Failure(fetched.error);
      }
      if fetched.value.Some? {
        return Success(MockInstance(resolved.rpcUrl.value, resolved.chainId, fetched.value.value));
      }
    }
    r := RelayerInstanceFor(provider, env);
  }

  /** Chain 31337 is a mock chain whatever the caller passes. */
  lemma LocalhostAlwaysMock(provider: Provider, mockChains: Option<map<int, string>>)
    ensures Resolve(provider, Num(LocalhostChainId), mockChains).isMock
  {
  }

  /** Without `mockChains`, and without a URL from the caller, the local chain resolves to the default node URL. */
  lemma LocalhostDefaultUrl(provider: Provider)
    requires !provider.RpcUrl?
    ensures Resolve(provider, Num(LocalhostChainId), None) == ResolveResult(true, Num(LocalhostChainId), Some(LocalhostRpcUrl))
  {
  }

  /** A caller's entry makes its chain a mock chain and supplies its URL, even for 31337. */
  lemma MockChainsOverride(provider: Provider, mockChains: map<int, string>, chainId: int)
    requires chainId in mockChains
    requires !(provider.RpcUrl? && provider.url != "")
    ensures Resolve(provider, Num(chainId), Some(mockChains)) == ResolveResult(true, Num(chainId), Some(mockChains[chainId]))
  {
  }

  /** Without `mockChains`, 31337 is the only mock chain. */
  lemma OnlyLocalhostByDefault(provider: Provider, chainId: Number)
    ensures Resolve(provider, chainId, None).isMock <==> chainId == Num(LocalhostChainId)
  {
  }

  /** An EIP-1193 provider reporting `"0x" + hex(n)` is on chain `n`. */
  lemma Eip1193ChainIdDecoded(n: nat, networkChainId: int)
    ensures GetChainId(Eip1193Provider, networkChainId, "0x" + ToDigits(n, 16)) == Num(n)
  {
    HexRoundTrip(n);
  }

  lemma LocalhostHexDigits()
    ensures ToDigits(31337, 16) == "7a69"
  {
    assert ToDigits(7, 16) == "7";
    assert ToDigits(122, 16) == "7a";
    assert ToDigits(1958, 16) == "7a6";
  }

  /** A wallet on the local Hardhat chain answers `eth_chainId` with "0x7a69" and is sent to the mock path. */
  lemma Eip1193LocalhostIsMock(networkChainId: int, mockChains: Option<map<int, string>>)
    ensures GetChainId(Eip1193Provider, networkChainId, "0x7a69") == Num(LocalhostChainId)
    ensures Resolve(Eip1193Provider, GetChainId(Eip1193Provider, networkChainId, "0x7a69"), mockChains).isMock
  {
    LocalhostHexDigits();
    assert "0x7a69" == "0x" + ToDigits(31337, 16);
    HexRoundTrip(31337);
  }

  /** A client version with "hardhat" in any letter case anywhere in it passes the check. */
  lemma HardhatVersionAccepted(before: string, word: string, after: string)
    requires ToLower(word) == "hardhat"
    ensures IsHardhatVersion(JString(before + word + after))
  {
    ToLowerAppend(before + word, after);
    ToLowerAppend(before, word);
    IncludesMiddle(ToLower(before), "hardhat", ToLower(after));
  }

  /** A version string with no "hardhat" in it sends the bootstrap to the relayer SDK. */
  lemma NonHardhatNodeUsesRelayer(rpcUrl: string, version: string, metadata: RpcReply)
    requires !Includes(ToLower(version), "hardhat")
    ensures TryFetchMetadata(rpcUrl, Reply(JString(version)), metadata) == Success(None)
  {
  }
}
