/** The chains the frontend knows: local Hardhat node and Sepolia. */
module Constants {
  import opened JsNumber

  const Localhost := 31337
  const Sepolia := 11155111

  /** `Object.values(SUPPORTED_CHAIN_IDS)`. */
  const SupportedChainIds: seq<int> := [Localhost, Sepolia]

  const ChainNames: map<int, string> := map[Localhost := "Localhost", Sepolia := "Sepolia"]

  predicate IsSupportedChain(chainId: int) {
    chainId in SupportedChainIds
  }

  /** The display name of a chain; `Unknown (<id>)` for a chain not in the table. */
  function GetChainName(chainId: int): (name: string)
    ensures IsSupportedChain(chainId) ==> chainId in ChainNames && name == ChainNames[chainId]
  {
    if IsSupportedChain(chainId) then ChainNames[chainId] else "Unknown (" + DecimalString(chainId) + ")"
  }

  /** The supported chains are exactly 31337 and 11155111. */
  lemma SupportedChainsExactly(chainId: int)
    ensures IsSupportedChain(chainId) <==> chainId == 31337 || chainId == 11155111
  {
  }

  /** Every chain id has an entry in `CHAIN_NAMES` exactly when it is supported. */
  lemma ChainNamesCoverSupported(chainId: int)
    ensures chainId in ChainNames <==> IsSupportedChain(chainId)
  {
  }

  lemma KnownChainNames()
    ensures GetChainName(31337) == "Localhost"
    ensures GetChainName(11155111) == "Sepolia"
  {
  }

  /** An unsupported chain is named after its decimal id, and the id can be read back from the name. */
  lemma UnknownChainName(chainId: int)
    requires !IsSupportedChain(chainId)
    ensures GetChainName(chainId) == "Unknown (" + DecimalString(chainId) + ")"
    ensures var name := GetChainName(chainId);
      ParseInt(name[9..|name| - 1], 10) == Num(chainId)
  {
    var name := GetChainName(chainId);
    assert name[9..|name| - 1] == DecimalString(chainId);
    DecimalRoundTrip(chainId);
  }

  /** The name of a chain is one of the table's names if and only if the chain is supported. */
  lemma ChainNameKnownIffSupported(chainId: int)
    ensures GetChainName(chainId) in ChainNames.Values <==> IsSupportedChain(chainId)
  {
    assert ChainNames.Values == {"Localhost", "Sepolia"} by {
      assert ChainNames[Localhost] == "Localhost" && ChainNames[Sepolia] == "Sepolia";
    }
    if !IsSupportedChain(chainId) {
      var name := GetChainName(chainId);
      assert name[0] == 'U';
    }
  }
}
