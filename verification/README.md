# Role/feature bit layout and Hardhat network configuration, in Dafny

This project models two small, sequential pieces of a Solidity token
template's JavaScript tooling, and proves properties of them:

1. **The role and feature catalogue** (`scripts/include/features_roles.js`).
   The catalogue is a fixed table of 256-bit capability masks. Features are
   contract-wide toggles (transfers, transfers on behalf, own burns, burns on
   behalf). Roles are per-operator capabilities (token creator, token
   destroyer, URI manager). Two constants are distinguished: the access
   manager role and the full-privileges (super-admin) mask. Each constant is
   a `nat`, and bitwise AND/OR and bit tests are defined on naturals
   (`Bits`). The proofs pin the layout down:
   - every named feature and role, the access manager included, is a single bit;
   - no two names share a bit;
   - the features fill part of the 16-bit feature window, and the roles sit above it;
   - the access manager is the top bit of the word;
   - the full mask is the all-ones word and contains everything.
2. **Network configuration** (`hardhat.config.js`). Three parts are modelled:
   - the start-up block that rewrites the process environment;
   - `get_endpoint_url`, which chooses a JSON-RPC endpoint for a network name;
   - the per-network choice between a private key and a mnemonic.

   The environment is an immutable `map<string, string>`. A variable counts
   as *set* when it is present and non-empty, which is JavaScript
   truthiness. `undefined` is `None`. When `undefined` is concatenated into a
   string it contributes the text `undefined`, as it does in JavaScript
   (`Environment.JsText`).

Modules: `Wrappers` (Option), `Bits` (bitmask arithmetic), `FeaturesRoles`
(the catalogue), `Environment` (environment map, truthiness, the four public
networks and their variable names), `Endpoint` (`get_endpoint_url`),
`EnvSetup` (the start-up block), `NetworkConfig` (per-network `url` and
`accounts`).

## Model

| member | source | states |
|---|---|---|
| FeaturesRoles.FlagIsSingleBit | scripts/include/features_roles.js:9-38 | each named feature/role constant equals `2^position` for its documented position (0, 1, 3, 4, 16, 17, 20, 255), has that bit and no other, and is a power of two |
| FeaturesRoles.FlagsPairwiseDisjoint | scripts/include/features_roles.js:9-38 | any two distinct names have different positions and their masks AND to 0 |
| FeaturesRoles.AccessManagerIsTopBit | scripts/include/features_roles.js:7-9 | `ROLE_ACCESS_MANAGER` is `2^255`: a 256-bit word whose only bit is bit 255, and a word has bit 255 exactly when it is at least `ROLE_ACCESS_MANAGER` |
| FeaturesRoles.FullMaskIsAllOnes | scripts/include/features_roles.js:11-12 | `FULL_PRIVILEGES_MASK` is `2^256 - 1`, a 256-bit word whose bits are exactly bits 0..255, and AND-ing any 256-bit word with it returns that word |
| FeaturesRoles.FullMaskContainsCatalogue | scripts/include/features_roles.js:12-38 | AND-ing every exported constant with `FULL_PRIVILEGES_MASK` returns that constant |
| FeaturesRoles.FlagsAreWords | scripts/include/features_roles.js:9-38 | each single-bit feature and role sits at a position below 256, so it fits in a 256-bit word |
| FeaturesRoles.FeaturesInsideWindow | scripts/include/features_roles.js:19-29 | every feature sits below bit 16 and is a subset of `FEATURE_ALL` |
| FeaturesRoles.FeatureAllIsLowWindow | scripts/include/features_roles.js:14-15 | `FEATURE_ALL` is `2^16 - 1`, a 256-bit word whose bits are exactly bits 0..15 |
| FeaturesRoles.RolesAboveWindow | scripts/include/features_roles.js:31-38 | every role, access manager included, sits at bit 16 or above and is disjoint from `FEATURE_ALL` |
| FeaturesRoles.NamedFeaturesLeaveRoom | scripts/include/features_roles.js:14-29 | the union of the four features is `0x1B`, a strict subset of `FEATURE_ALL`; bit 2 is in the window but belongs to no name |
| Endpoint.EndpointUrl | hardhat.config.js:233-271 | an endpoint exists exactly for the four public networks, or for `riochain` when `RIOCHAIN_RPC_URL` is set; any endpoint returned is non-empty |
| Endpoint.CustomUrlWins | hardhat.config.js:236-250 | a set custom URL variable of the requested network is returned verbatim, whatever the API keys hold |
| Endpoint.CustomUrlIsolated | hardhat.config.js:236-250 | setting another network's custom URL variable never changes the result for this network |
| Endpoint.EndpointReadsOnly | hardhat.config.js:233-271 | the result depends only on the network's custom URL variable, `ALCHEMY_KEY` and `INFURA_KEY` |
| Endpoint.NetworkPrefixes | hardhat.config.js:254-270 | each public network's Alchemy and Infura prefix is its name inside that provider's URL pattern |
| Endpoint.AlchemyBeforeInfura | hardhat.config.js:252-261 | with no custom URL and a set Alchemy key, a public network gets `https://eth-<name>.alchemyapi.io/v2/` followed by the key |
| Endpoint.InfuraFallback | hardhat.config.js:263-270 | with no custom URL and no Alchemy key, a public network gets `https://<name>.infura.io/v3/` followed by `INFURA_KEY`, which reads as the text `undefined` when absent |
| Endpoint.UnknownNetworkHasNoEndpoint | hardhat.config.js:248-271 | any other name, `riochain` without its custom URL included, yields `undefined` |
| EnvSetup.WithHexPrefix | hardhat.config.js:57-60 | the result starts with `0x`; it is the key itself exactly when the key already starts with `0x`, and otherwise `0x` followed by the key |
| EnvSetup.SetUpAccount | hardhat.config.js:53-60 | one network's check leaves a mnemonic or a private key set, and a set key `0x`-prefixed. It fills in the fake mnemonic only when neither was set. It changes no other variable |
| EnvSetup.SetUpAccounts | hardhat.config.js:53-84 | running the credential checks over a list of networks changes no variable outside those networks' credential variables |
| EnvSetup.SetUpAccountsEffect | hardhat.config.js:53-84 | with the four checks in sequence, each network's variables end exactly as its own check alone leaves them, and its credentials are usable |
| EnvSetup.SetUpApiKeys | hardhat.config.js:85-89 | with neither API key set, both become `""`; with either set, nothing changes; no other variable changes |
| EnvSetup.SetUpEtherscan | hardhat.config.js:90-93 | a missing or empty `ETHERSCAN_KEY` becomes `""`; a set one is kept; no other variable changes |
| EnvSetup.SetUp | hardhat.config.js:52-93 | after the start-up block every network has usable credentials, one API key is set or both are `""`, `ETHERSCAN_KEY` is present, and unmanaged variables are unchanged |
| EnvSetup.SetUpCredentials | hardhat.config.js:52-84 | against the starting environment: a set `P_KEYn` ends as its `0x`-prefixed form; an unset one is untouched. `MNEMONICn` becomes the fake mnemonic exactly when neither was set, and is untouched otherwise |
| EnvSetup.SetUpApiKeysEffect | hardhat.config.js:85-89 | against the starting environment: with neither API key set both end as `""`, otherwise both are untouched |
| EnvSetup.SetUpEtherscanEffect | hardhat.config.js:90-93 | against the starting environment: a set `ETHERSCAN_KEY` is kept, and a missing or empty one ends as `""` |
| EnvSetup.ReadyIsFixpoint | hardhat.config.js:52-93 | an environment already in the state the start-up block establishes passes through it unchanged |
| EnvSetup.SetUpIdempotent | hardhat.config.js:52-93 | running the start-up block twice equals running it once |
| NetworkConfig.ConfiguredAccounts | hardhat.config.js:123-157 | a network's `accounts` is the one-element list holding its `0x`-prefixed private key when `P_KEYn` was set. Otherwise it is its own mnemonic, or the fake mnemonic when neither was set |
| NetworkConfig.SettingsWellFormed | hardhat.config.js:120-157 | every public network gets a non-empty URL, and either exactly one `0x`-prefixed key or a non-empty mnemonic |
| NetworkConfig.InfuraKeyDefinedWhenUsed | hardhat.config.js:263-270 | for a public network with no custom URL and no Alchemy key, the start-up block leaves `INFURA_KEY` present, so the Infura URL ends in the original key, or in nothing when none was set, and never in the text `undefined` |

## Left out

- `deploy/erc721_mint.js`: it only submits transactions over web3 and logs receipts, with a random token id. There is no logic in it to state.
- The permission engine that consumes the masks: role checks, role and feature updates, escalation rules and access-manager gating. It is implemented in Solidity contracts that are not part of this model.
- Loading `.env` through `dotenv`: the model takes the resulting environment as its input map.
- The BigNumber library: its values are modelled as `nat`s below `2^256`.
- `console.warn` messages: they are output only.
- Plugin `require`s and static settings: the Solidity compiler list, mocha, dependency compiler, hardhat-network `chainId`, gas price and account count. They are configuration data with no behaviour. Two settings do read the environment, and neither is modelled. `etherscan.apiKey` passes `ETHERSCAN_KEY` through; the model covers only how the start-up block fills that variable in. `gasReporter.enabled` is the JavaScript truthiness of `REPORT_GAS` (hardhat.config.js:207-209); the model has nothing that reads `REPORT_GAS`.
- Assignment to `process.env` converts values to strings. Every value written here is already a string, so the map is `map<string, string>`.
