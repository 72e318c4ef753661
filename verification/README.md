# PrismLadder frontend helpers in Dafny

PrismLadder is a demo dApp: a compensation-statistics contract that runs on an FHE-enabled EVM, and a
Next.js frontend. Most of the frontend is React pages, wallet hooks and calls into a vendor SDK. This
project models the frontend's self-contained helpers and proves what they promise:

- **Wallet persistence** (`WalletPersistence`). The last wallet connection is saved into `localStorage`
  under four fixed keys and read back on reload. The browser is a `Browser` object. It has a
  `hasWindow` flag and a `localStorage: map<string, string>` field that `Save` and `Clear` update in place.
  The proofs cover the round trip of each field, the encoding's lossy spots (an empty connector id and a
  falsy chain id load back as `null`), and the keys each operation touches.
- **Decryption-signature store** (`FhevmDecryptionSignature`). It keeps one signature per account under
  `fhevm.decryptionSignature.` followed by the lower-cased account. It offers set, get, remove and a
  prefix-filtered clear.
- **FHEVM bootstrap decisions** (`Fhevm`). These cover the chain id (decoded from hex for an EIP-1193
  wallet) and the mock-versus-relayer choice from the merged chain-id→URL table. They also cover the URL
  the instance uses, the Hardhat client-version and metadata checks, and the branch `createFhevmInstance`
  takes. Every RPC answer is an input.
- **Chain tables** (`Constants`, `ContractAddresses`). These are `isSupportedChain`, `getChainName` and
  the generated `getContractAddress`, with proofs that the three agree.
- **Design tokens** (`DesignTokens`). `getColor` walks a dotted path through the colour palette of a
  mode and falls back to black or white. `getSpacing` reads the spacing scale of a density, and
  `tailwindColors` re-exports the light palette.

Shared modules model the JavaScript behaviour these helpers rely on:
- `JsNumber`: `parseInt` and `String(n)`;
- `JsString`: `toLowerCase`, `startsWith`, `includes` and `split`;
- `JsonStringList`: `JSON.stringify`/`JSON.parse` on arrays of strings, with a proved round trip;
- `BrowserStorage`: the `localStorage` API.

A path to `getColor` that ends at a group of colours (`"primary"`) gives the group itself, as the source
does. Its declared return type says `string`, but the source never checks that the result is one.

## Model

| member | source | states |
|---|---|---|
| `WalletPersistence.Save` | prismladder-frontend/fhevm/WalletPersistence.ts:21-39 | with a window, the store becomes `Saved(old store, state)`, one `setItem` per given field; without a window nothing changes |
| `WalletPersistence.Load` | prismladder-frontend/fhevm/WalletPersistence.ts:41-62 | with a window, the result is the record decoded from the store, or a failure where `JSON.parse` would throw or would give something other than an array of strings; without a window it is the default record |
| `WalletPersistence.Clear` | prismladder-frontend/fhevm/WalletPersistence.ts:64-70 | with a window, the store loses exactly the four wallet keys; without a window nothing changes |
| `WalletPersistence.SaveFrame` | prismladder-frontend/fhevm/WalletPersistence.ts:21-39 | `save` leaves every key outside those of its given fields as it was (present or absent, same value) |
| `WalletPersistence.SaveWrites` | prismladder-frontend/fhevm/WalletPersistence.ts:21-39 | after `save` the store's keys are the old keys plus exactly the keys of the given fields |
| `WalletPersistence.ConnectedRoundTrip` | prismladder-frontend/fhevm/WalletPersistence.ts:36-60 | a saved `connected` loads back as the same boolean |
| `WalletPersistence.ChainIdRoundTrip` | prismladder-frontend/fhevm/WalletPersistence.ts:32-59 | a saved chain id of magnitude below 10^21 loads back unchanged unless it is null, 0 or NaN, which load back as null |
| `WalletPersistence.ConnectorIdRoundTrip` | prismladder-frontend/fhevm/WalletPersistence.ts:24-51 | a saved connector id loads back unchanged, except `""`, which loads back as null |
| `WalletPersistence.AccountsRoundTrip` | prismladder-frontend/fhevm/WalletPersistence.ts:28-58 | saved accounts load back as the same list |
| `WalletPersistence.SaveLoadRoundTrip` | prismladder-frontend/fhevm/WalletPersistence.ts:21-62 | saving a whole record and loading gives the record with its lossy values normalised to null |
| `WalletPersistence.SaveLoadExact` | prismladder-frontend/fhevm/WalletPersistence.ts:21-62 | a whole record survives save and load exactly when its connector id is not `""` and its chain id is not 0 or NaN |
| `WalletPersistence.LoadAfterClear` | prismladder-frontend/fhevm/WalletPersistence.ts:41-70 | after `clear`, `load` gives the default record (null, [], null, false) |
| `WalletPersistence.ClearFrame` | prismladder-frontend/fhevm/WalletPersistence.ts:64-70 | `clear` leaves every other key as it was |
| `JsonStringList.RoundTrip` | prismladder-frontend/fhevm/WalletPersistence.ts:28-58 | `JSON.parse(JSON.stringify(xs))` is `xs` for every list of strings, escapes included |
| `JsonStringList.SurrogatePairExample` | prismladder-frontend/fhevm/WalletPersistence.ts:58 | `JSON.parse` reads the escape pair `\ud83d\ude00` as the one character U+1F600 |
| `JsonStringList.LoneSurrogateExample` | prismladder-frontend/fhevm/WalletPersistence.ts:58 | a high surrogate escape with no low one after it is refused, where JavaScript would keep the lone surrogate (not a Dafny `char`) |
| `JsonStringList.NullIsNotAList` | prismladder-frontend/fhevm/WalletPersistence.ts:58 | the text `null`, valid JSON but not an array, gives no list of accounts (so `Load` fails where the source would return `null` unchecked) |
| `JsNumber.DecimalRoundTrip` | prismladder-frontend/fhevm/WalletPersistence.ts:33-59 | `parseInt(String(n), 10)` is `n` for every integer of magnitude below 10^21, where `String` writes plain digits |
| `FhevmDecryptionSignature.StorageKey` | prismladder-frontend/fhevm/FhevmDecryptionSignature.ts:6-11 | the key starts with the prefix, and the rest of it is the lower-cased account |
| `FhevmDecryptionSignature.Set` | prismladder-frontend/fhevm/FhevmDecryptionSignature.ts:9-12 | with a window, the store maps the account's key to the signature; without one nothing changes |
| `FhevmDecryptionSignature.Get` | prismladder-frontend/fhevm/FhevmDecryptionSignature.ts:14-17 | with a window, the result is the entry under the account's key; without one it is null |
| `FhevmDecryptionSignature.Remove` | prismladder-frontend/fhevm/FhevmDecryptionSignature.ts:19-22 | with a window, the account's key is removed; without one nothing changes |
| `FhevmDecryptionSignature.Clear` | prismladder-frontend/fhevm/FhevmDecryptionSignature.ts:24-32 | with a window, the store keeps exactly its entries whose keys lack the prefix; without one nothing changes |
| `FhevmDecryptionSignature.GetAfterSet` | prismladder-frontend/fhevm/FhevmDecryptionSignature.ts:9-17 | `get(a)` right after `set(a, s)` gives `s` |
| `FhevmDecryptionSignature.KeyIgnoresCase` | prismladder-frontend/fhevm/FhevmDecryptionSignature.ts:11-16 | two accounts share a key if and only if they agree after lower-casing |
| `FhevmDecryptionSignature.GetIgnoresCase` | prismladder-frontend/fhevm/FhevmDecryptionSignature.ts:9-17 | a signature set under one spelling is read under any spelling with the same lower case |
| `FhevmDecryptionSignature.GetAfterRemove` | prismladder-frontend/fhevm/FhevmDecryptionSignature.ts:14-22 | after `remove(a)`, `get(a)` is null |
| `FhevmDecryptionSignature.SetRemoveFrame` | prismladder-frontend/fhevm/FhevmDecryptionSignature.ts:9-22 | `set` and `remove` leave every other key as it was |
| `FhevmDecryptionSignature.ClearFrame` | prismladder-frontend/fhevm/FhevmDecryptionSignature.ts:24-32 | `clear` removes a key if and only if it has the prefix, and keeps the values of the rest |
| `FhevmDecryptionSignature.GetAfterClear` | prismladder-frontend/fhevm/FhevmDecryptionSignature.ts:14-32 | after `clear`, `get` is null for every account |
| `Fhevm.GetChainId` | prismladder-frontend/fhevm/internal/fhevm.ts:19-35 | an EIP-1193 provider's chain id is its `eth_chainId` answer parsed in base 16; other providers give the network's id |
| `Fhevm.Eip1193ChainIdDecoded` | prismladder-frontend/fhevm/internal/fhevm.ts:32-34 | an `eth_chainId` answer `"0x" + hex(n)` decodes to `n` |
| `JsNumber.HexRoundTrip` | prismladder-frontend/fhevm/internal/fhevm.ts:32-34 | `parseInt("0x" + hex(n), 16)` is `n` for every natural number |
| `Fhevm.Eip1193LocalhostIsMock` | prismladder-frontend/fhevm/internal/fhevm.ts:19-101 | a wallet answering `"0x7a69"` is on chain 31337 and resolves as mock |
| `Fhevm.MockTable` | prismladder-frontend/fhevm/internal/fhevm.ts:88-91 | the merged table holds 31337 and the caller's ids; a caller's entry wins, and 31337 keeps the default URL only when the caller has no entry for it |
| `Fhevm.Resolve` | prismladder-frontend/fhevm/internal/fhevm.ts:81-101 | mock if and only if the chain id is a key of the merged table; a mock URL is the caller's non-empty URL string, else the table's entry; a non-mock result has a URL exactly when the caller passed a string |
| `Fhevm.LocalhostAlwaysMock` | prismladder-frontend/fhevm/internal/fhevm.ts:88-93 | chain 31337 is mock whatever `mockChains` is, absent included |
| `Fhevm.LocalhostDefaultUrl` | prismladder-frontend/fhevm/internal/fhevm.ts:86-97 | with no `mockChains` and no URL string, chain 31337 resolves to `http://localhost:8545` |
| `Fhevm.MockChainsOverride` | prismladder-frontend/fhevm/internal/fhevm.ts:88-97 | when the provider is not a non-empty URL string, a caller's entry makes its chain mock with the caller's URL, even for 31337 |
| `Fhevm.OnlyLocalhostByDefault` | prismladder-frontend/fhevm/internal/fhevm.ts:88-100 | without `mockChains`, 31337 is the only mock chain |
| `Fhevm.CheckMetadata` | prismladder-frontend/fhevm/internal/fhevm.ts:62-75 | metadata is accepted if and only if the call answered with an object whose three address properties are strings, and then those are the result |
| `Fhevm.TryFetchMetadata` | prismladder-frontend/fhevm/internal/fhevm.ts:49-76 | an unreachable node raises `WEB3_CLIENTVERSION_ERROR`; otherwise metadata is returned exactly when the version contains "hardhat" in any case and the metadata shape check passes |
| `Fhevm.HardhatVersionAccepted` | prismladder-frontend/fhevm/internal/fhevm.ts:57-60 | any version string containing "hardhat" in any letter case passes the client-version check |
| `Fhevm.NonHardhatNodeUsesRelayer` | prismladder-frontend/fhevm/internal/fhevm.ts:57-60 | a version string without "hardhat" gives `undefined` metadata, not an error |
| `Fhevm.RelayerInstanceFor` | prismladder-frontend/fhevm/internal/fhevm.ts:128-173 | an invalid ACL address raises `INVALID_ACL_ADDRESS`; a browser provider without `window.ethereum` raises `NO_ETHEREUM_PROVIDER`; otherwise the instance is always built (no other failure), and its SDK network is the URL, `window.ethereum` or the caller's EIP-1193 provider |
| `Fhevm.CreateFhevmInstance` | prismladder-frontend/fhevm/internal/fhevm.ts:103-174 | a mock instance is built if and only if the chain is mock and the node's version and metadata are accepted; an unreachable mock node raises `WEB3_CLIENTVERSION_ERROR`; every other case takes the relayer path |
| `Constants.GetChainName` | prismladder-frontend/fhevm/internal/constants.ts:22-27 | a supported chain gets its `CHAIN_NAMES` entry |
| `Constants.SupportedChainsExactly` | prismladder-frontend/fhevm/internal/constants.ts:6-20 | `isSupportedChain(c)` holds exactly for 31337 and 11155111 |
| `Constants.ChainNamesCoverSupported` | prismladder-frontend/fhevm/internal/constants.ts:13-20 | `CHAIN_NAMES` has an entry exactly for the supported chains |
| `Constants.KnownChainNames` | prismladder-frontend/fhevm/internal/constants.ts:13-25 | 31337 is "Localhost" and 11155111 is "Sepolia" |
| `Constants.UnknownChainName` | prismladder-frontend/fhevm/internal/constants.ts:22-27 | an unsupported chain is named "Unknown (" + its decimal id + ")", and the id parses back from the name |
| `Constants.ChainNameKnownIffSupported` | prismladder-frontend/fhevm/internal/constants.ts:13-27 | `getChainName(c)` is a value of `CHAIN_NAMES` if and only if `c` is supported |
| `ContractAddresses.DeployedAddressesWellFormed` | prismladder-frontend/abi/PrismLadderCompensationAddresses.ts:4-7 | every deployed address is `0x` followed by 40 hexadecimal digits |
| `ContractAddresses.GetContractAddress` | prismladder-frontend/abi/PrismLadderCompensationAddresses.ts:11-15 | 31337 gives the localhost entry, 11155111 the sepolia entry, every other id `undefined` |
| `ContractAddresses.AddressIffSupported` | prismladder-frontend/abi/PrismLadderCompensationAddresses.ts:11-15 | an address exists if and only if `isSupportedChain` holds |
| `DesignTokens.GetColor` | prismladder-frontend/design-tokens.ts:281-297 | the result is the token reached by walking the path's dot-separated parts from the mode's palette, or the mode's fallback colour if some part is missing; the mode defaults to light |
| `JsString.SplitJoin` | prismladder-frontend/design-tokens.ts:285 | splitting a dotted path whose parts have no dots gives those parts back |
| `DesignTokens.ColorAtPair` | prismladder-frontend/design-tokens.ts:285-296 | `scale.shade` looks up the scale in the palette and then the shade in it, falling back if either is missing |
| `DesignTokens.LightPrimaryExample` | prismladder-frontend/design-tokens.ts:16-27 | `primary.500` in light mode is `#6366F1` |
| `DesignTokens.DarkPrimaryExample` | prismladder-frontend/design-tokens.ts:88-99 | `primary.500` in dark mode is `#818CF8` |
| `DesignTokens.MissingPartFallsBack` | prismladder-frontend/design-tokens.ts:288-292 | a dotted path of any length whose walk reaches a token lacking the next part (at any position) gives `#000000` in light mode and `#FFFFFF` in dark mode |
| `DesignTokens.GetSpacing` | prismladder-frontend/design-tokens.ts:300-305 | the result is the leaf at `spacing[density][size]`; the density defaults to comfortable |
| `DesignTokens.CompactIsOneStepSmaller` | prismladder-frontend/design-tokens.ts:195-215 | each compact size equals the next smaller comfortable size |
| `DesignTokens.TailwindColors` | prismladder-frontend/design-tokens.ts:308-313 | exactly the primary, secondary, accent and neutral scales, each equal to the light palette's |
| `DesignTokens.TailwindAgreesWithGetColor` | prismladder-frontend/design-tokens.ts:281-313 | every Tailwind colour `scale.shade` is what light-mode `getColor` gives for that path |

## Left out

- I/O in the FHEVM bootstrap is not modelled: the `JsonRpcProvider` calls and `rpc.destroy()`, `RelayerSDKLoader`, `initSDK`, `createInstance` and the mock-utils instance factory. The RPC answers are inputs (`NodeReplies`), ethers' `isAddress` is a boolean input, and the result records which instance would be built.
- `Fhevm.CheckMetadata`: keeps only the three addresses, where the source passes the whole metadata object on, extra properties included.
- `Fhevm.Resolve`: chain ids are integers or NaN. A NaN id is never mock, and a `mockChains` key that is not an integer cannot be expressed.
- `Fhevm.GetChainId`: for URL and `BrowserProvider` providers, the chain id reported by `getNetwork()` is an input.
- `JsNumber.ParseInt`: exact for every digit string, where the source rounds values above 2^53. -0 is identified with 0. Only the radices 2-36 are modelled (the callers pass 10 and 16).
- `JsNumber.DecimalString`: integers only; exponent notation (from 1e21) and fractions are not modelled.
- `JsString.ToLower`: maps only A-Z. Unicode case mapping is not modelled, which is exact for hex account addresses.
- `JsonStringList.Decode`: accepts only JSON arrays of strings. Other valid JSON in the accounts entry is reported as an error, where the source returns the parsed value unchecked. An escaped surrogate pair decodes to its supplementary character; a lone surrogate escape is refused, because a lone UTF-16 surrogate is not a Dafny `char`.
- `WalletPersistence.Load`: a failure stands for the exception `JSON.parse` throws and also for text that parses to something other than an array of strings (`null`, a number, an object), which the source would return unchecked; the caller's handling of it is not part of this model.
- `localStorage` quota and security exceptions, and changes made by other tabs, are not modelled.
- `DesignTokens.GetColor`: a palette leaf is terminal. The source's string indexing of a leaf (a character or `length`) and inherited `Object.prototype` names (`toString`, ...) are not modelled. The `console.warn` call is omitted.
- The typography, border-radius, shadow, transition, breakpoint, z-index and glassmorphism tables are constant data no modelled operation reads.
- `SDK_CDN_URL` and `SDK_LOCAL_URL` are constants used only by the SDK loader, which is not part of this model.
- React pages, components, hooks and providers are UI and wallet orchestration, and are not part of this model.
- The Hardhat tasks, tests and build scripts are not part of this model. The contract's Solidity source is not available, and its arithmetic is done by an external FHE library.
