/** The generated table of deployed `PrismLadderCompensation` addresses. */
module ContractAddresses {
  import opened Wrappers
  import Constants
  import opened JsNumber

  /** `PrismLadderCompensationAddresses`, keyed by network name. */
  const DeployedAddresses: map<string, string> := map[
    "localhost" := "0x807bB73583BbF10A7B7804504D30b06D1436628E",
    "sepolia" := "0x807bB73583BbF10A7B7804504D30b06D1436628E"]

  /** `0x` followed by 40 hexadecimal digits. */
  predicate IsAddressText(s: string) {
    |s| == 42 && s[..2] == "0x" && forall i :: 2 <= i < 42 ==> IsDigit(s[i], 16)
  }

  lemma DeployedAddressesWellFormed()
    ensures forall network :: network in DeployedAddresses ==> IsAddressText(DeployedAddresses[network])
  {
    var a := "0x807bB73583BbF10A7B7804504D30b06D1436628E";
    assert a[0] == '0' && a[1] == 'x';
    assert a[..2] == "0x";
    assert forall i :: 2 <= i < 42 ==> IsDigit(a[i], 16);
    assert DeployedAddresses.Keys == {"localhost", "sepolia"};
  }

  /** The address deployed on a chain; `None` is `undefined`. */
  function GetContractAddress(chainId: int): (r: Option<string>)
    ensures chainId == 31337 ==> r == Some(DeployedAddresses["localhost"])
    ensures chainId == 11155111 ==> r == Some(DeployedAddresses["sepolia"])
    ensures chainId != 31337 && chainId != 11155111 ==> r == None
    ensures r.Some? ==> IsAddressText(r.value)
  {
    DeployedAddressesWellFormed();
    if chainId == 31337 then Some(DeployedAddresses["localhost"])
    else if chainId == 11155111 then Some(DeployedAddresses["sepolia"])
    else None
  }

  /** A contract address exists exactly for the chains the frontend supports. */
  lemma AddressIffSupported(chainId: int)
    ensures GetContractAddress(chainId).Some? <==> Constants.IsSupportedChain(chainId)
  {
  }
}
