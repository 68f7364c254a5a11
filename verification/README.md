# Fabric deployment bootstrapper: reconciliation model

This project models the core of the `blockchain` package of a Hyperledger
Fabric demo application, in Dafny. That core is the code that provisions a
channel and deploys a chaincode onto it:

- `Initialize` builds the SDK and its clients, then saves and joins the
  channel.
- `InstallAndInstantiateCC` packages the chaincode, installs or upgrades it,
  and instantiates it.

The package exists in two variants, which are modelled as two modules:

- `Setup` models `setup.go`, the unconditional variant. It always saves and
  joins the channel, and always installs and instantiates.
- `Setup2` models `setup2.go`, the inspect-then-act variant. It looks at the
  network before each write:
  - it skips the channel writes when the first discovered peer lists the
    channel;
  - it upgrades instead of installing when every discovered peer lists the
    chaincode's name and version;
  - it skips the instantiation when the channel lists the chaincode.

The SDK is opaque. The network is an immutable snapshot (`Fabric`,
`Discovery.Feed`, `Setup2.Network`):

- each discovered peer carries its answer to the installed-chaincode query and
  to the channel query;
- the channel carries its answer to the instantiated-chaincode query;
- each discovery attempt sees its own view of the peers.

An `Oracle` gives the outcome of every write and of every client constructor.
An outcome is ok or an error; for saves, upgrades and instantiations it can
also be ok with an empty transaction id.

Each pipeline is a pure function. It returns a `Run`:

- the error result;
- the trace of the SDK calls it issued that can fail, in order. Calls that
  return no error are not traced: `sdk.Context`, `sdk.ChannelContext`,
  `LocalDiscoveryService` and the policy builders;
- the session state it leaves behind: the re-entry flag and which client
  handles are set.

`Fabric.Writes` extracts the calls that change the network. Each pipeline has a
partner in `Sequencing.Sequence`, the reference abort-on-first-failure
semantics over a planned list of steps. The `*FollowsPlan` lemmas prove that
each pipeline is exactly that semantics over its plan.

Modules:

- `Bytes`: Go strings as byte sequences, ASCII lower-casing.
- `Fabric`: network replies, calls, the oracle, the session, and the writes of
  a trace.
- `Discovery`: `DiscoverLocalPeers`, with its quorum and bounded retry.
- `Inspect`: `GetParams`, the chaincode and channel lookups, `OrgTargetPeers`.
- `Sequencing`: the reference semantics.
- `Setup`, `Setup2`: the two variants.

Behaviour of the code that a reader might not expect:

- A re-run of `InstallAndInstantiateCC` in `setup2.go`, against a network
  whose peers and channel already list the chaincode, still issues one
  `UpgradeCC` with the same version (`Setup2.RerunUpgradesInPlace`).
- The upgrade's transaction id is not checked, only its error
  (`Setup2.DeployOk`).
- The upgrade policy is `SignedByMspMember(OrgID)` (`Setup2.UpgradeCall`).

Other details kept from the code:

- `setup.go` instantiates with the literal MSP id `org1.hf.chainhero.io`
  rather than the configured org id (`Setup.PolicyMsp`).
- `setup2.go` passes the Go path, not the source path, as the instantiation's
  chaincode path (`Setup2.InstantiateCall`).
- The `if err != nil` checks after building the resource-management context
  (setup.go:74 and setup2.go:92) test an error that is already nil there, so
  they never fire and have no counterpart in the model.

## Model

| member | source | states |
|---|---|---|
| Inspect.GetParams | demo/web/blockchain/setup2.go:63-71 | the result has one entry per argument, entry i holds the bytes of argument i in order, and no arguments give an empty result |
| Discovery.Invoke | demo/web/blockchain/setup2.go:279-290 | from attempt k on, a query error ends the retry at once, a shortfall is retried while the budget lasts, and a success returns the whole view of its attempt with at least the expected number of peers |
| Discovery.DiscoverLocalPeers | demo/web/blockchain/setup2.go:273-297 | a context error makes no attempt; otherwise at most retries+1 attempts, every attempt but the last was a shortfall, a success holds at least `expected` peers and is exactly the last view, and a quorum failure means every attempt was short |
| Discovery.DiscoverySucceedsIff | demo/web/blockchain/setup2.go:273-297 | discovery succeeds if and only if the context is created and some attempt within the budget meets the quorum after only shortfalls |
| Discovery.StaticDiscovery | demo/web/blockchain/setup2.go:279-296 | against an unchanging network, discovery succeeds exactly when the view answers with enough peers, after one attempt, returning that view |
| Inspect.FindCC | demo/web/blockchain/setup2.go:309-315 | the first-match scan finds an entry exactly when some entry has both the requested name and the requested version |
| Inspect.IsCCInstalled | demo/web/blockchain/setup2.go:300-322 | installed if and only if every peer's entries list the exact name and version; a failed query contributes no entries, and an empty peer list gives true |
| Inspect.InstalledSplits | demo/web/blockchain/setup2.go:303-320 | the check over two groups of peers is the conjunction of the checks over each group |
| Inspect.OnePeerMissingIsEnough | demo/web/blockchain/setup2.go:316-319 | one peer without an entry of the requested version makes the check false |
| Inspect.IsCCInstalledAsWritten | demo/web/blockchain/setup2.go:300-322 | as written, evaluation dereferences nil exactly when some peer's query fails; otherwise it is the all-peers check |
| Inspect.InstalledQueryErrorDereferencesNil | demo/web/blockchain/setup2.go:305-309 | a single peer whose query fails makes the code as written dereference nil, while the corrected check answers false |
| Inspect.AsWrittenAgreesWithoutQueryErrors | demo/web/blockchain/setup2.go:300-322 | when every query answers, the code as written and the corrected check agree |
| Inspect.IsCCInstantiated | demo/web/blockchain/setup2.go:324-336 | a failed channel query is an error and nothing else is; an answer is true if and only if some entry has the exact name and version |
| Inspect.OtherVersionIsNotInstantiated | demo/web/blockchain/setup2.go:330-334 | the same name under another version does not count as instantiated |
| Inspect.FindChannel | demo/web/blockchain/setup2.go:342-347 | the scan finds the channel exactly when its id is in the list |
| Inspect.IsJoinedChannel | demo/web/blockchain/setup2.go:338-349 | the peer's query error is passed on; an answer is true if and only if the channel id is in the peer's list |
| Inspect.OrgTargetPeers | demo/web/blockchain/setup2.go:224-240 | an error reading the organizations is passed on; otherwise the result is the known orgs' peer lists concatenated in the order of `orgs`, an org being known when its lower-cased name is a key |
| Inspect.TargetsAppend | demo/web/blockchain/setup2.go:232-238 | selecting for two lists of orgs is selecting for each in turn |
| Inspect.TargetsAreSound | demo/web/blockchain/setup2.go:232-238 | every selected peer is in the list of some known org among `orgs` |
| Inspect.TargetsAreComplete | demo/web/blockchain/setup2.go:232-238 | every peer of every known org among `orgs` is selected; unknown orgs are skipped |
| Bytes.ToLower | demo/web/blockchain/setup2.go:233 | the result has the same length and no upper-case ASCII letter; each upper-case letter becomes its lower-case form and every other byte is kept |
| Sequencing.SequenceMeaning | demo/web/blockchain/setup.go:65-108 | the return-on-first-error chain succeeds if and only if every step succeeds, and then has issued every call; otherwise its error is the first failing step's, and it has issued exactly the calls up to and including that step |
| Setup.Initialize | demo/web/blockchain/setup.go:57-109 | re-entry fails with no calls; otherwise success if and only if every step succeeds with a non-empty save transaction id; the calls are a prefix of SDK, resource management client, MSP client, signing identity, save, join; no join without a committed save; the flag is set only on success; the handles invariant is kept |
| Setup.InitializeFollowsPlan | demo/web/blockchain/setup.go:65-108 | past the guard, `Initialize` returns the same error and the same calls as the abort-on-first-failure run of its plan |
| Setup.InitializeWrites | demo/web/blockchain/setup.go:93-104 | the writes are a prefix of save-then-join, with no existence check, and a join only after a committed save |
| Setup.InitializeTwice | demo/web/blockchain/setup.go:60-62 | a second `Initialize` after a successful one fails with no calls |
| Setup.InstallAndInstantiateCC | demo/web/blockchain/setup.go:111-154 | success if and only if package, install, a committed instantiation and both clients succeed; install is always the second call; no instantiation after a failed install; an uncommitted instantiation fails with the session unchanged and no client created; an event-client failure leaves the channel client set |
| Setup.DeployFollowsPlan | demo/web/blockchain/setup.go:115-151 | `InstallAndInstantiateCC` returns the same error and calls as the abort-on-first-failure run of its plan |
| Setup.DeployWrites | demo/web/blockchain/setup.go:122-135 | the writes are a prefix of install-then-instantiate; there is a write exactly when packaging succeeded, and two exactly when the install also succeeded |
| Setup.InitializeAsWritten | demo/web/blockchain/setup.go:93-97 | as written, success with the session left uninitialized happens exactly when the save answers with an empty transaction id after the clients succeeded |
| Setup.EmptySaveTxIdReportsSuccess | demo/web/blockchain/setup.go:95-96 | an empty save transaction id makes the code as written report success without a join and without setting the flag, where the model fails |
| Setup.InstallAndInstantiateCCAsWritten | demo/web/blockchain/setup.go:132-135 | as written, an instantiation with an empty transaction id counts as success |
| Setup.EmptyInstantiateTxIdReportsSuccess | demo/web/blockchain/setup.go:133-134 | an empty instantiation transaction id makes the code as written report success with no channel client, where the model fails |
| Setup2.CheckIsJoinedChannel | demo/web/blockchain/setup2.go:156-173 | true if and only if discovery succeeds and the first discovered peer's channel list holds the channel; only that peer is asked; the index is safe because the quorum is two |
| Setup2.CheckCCInstalled | demo/web/blockchain/setup2.go:246-259 | true if and only if discovery succeeds and every discovered peer lists the exact name and version; a discovery error reads as false; a peer whose installed-chaincode query fails reads as not installed, where the code as written dereferences nil (first row of Findings) |
| Setup2.CheckCCInstantiated | demo/web/blockchain/setup2.go:261-269 | true if and only if the channel query answers and lists the exact name and version; a single query call is made |
| Setup2.Initialize | demo/web/blockchain/setup2.go:75-154 | re-entry fails with no calls; success if and only if every client step succeeds and either the channel was seen as joined or the save committed and the join succeeded; the flag is set only on success, and an initialized session has every handle set |
| Setup2.InitializeFollowsPlan | demo/web/blockchain/setup2.go:84-153 | past the guard, `Initialize` returns the same error and calls as the abort-on-first-failure run of clients, channel check, provisioning when not joined, and session clients |
| Setup2.ConnectFollowsPlan | demo/web/blockchain/setup2.go:112-150 | the part after the clients is the abort-on-first-failure run of the check's calls, the provisioning steps and the session steps |
| Setup2.InitializeWrites | demo/web/blockchain/setup2.go:112-127 | no writes when the channel was seen as joined; otherwise a prefix of save-then-join that holds the save once the clients succeeded, with a join only after a committed save |
| Setup2.InitializeTwice | demo/web/blockchain/setup2.go:78-80 | a second `Initialize` after a successful one fails with no calls |
| Setup2.InstallAndInstantiateCC | demo/web/blockchain/setup2.go:175-222 | success if and only if packaging and the deploying write succeed and the chaincode was seen as instantiated or the instantiation committed; an uncommitted instantiation fails; packaging is the first call; the session is unchanged; a failed installed-chaincode query on a peer leads to `InstallCC`, where the code as written dereferences nil (first row of Findings) |
| Setup2.DeployRunsSteps | demo/web/blockchain/setup2.go:184-217 | the part after packaging is the abort-on-first-failure run of the installed check, the deploying write, the instantiated check and the instantiation when needed |
| Setup2.DeployFollowsPlan | demo/web/blockchain/setup2.go:175-222 | `InstallAndInstantiateCC` returns the same error and calls as the abort-on-first-failure run of its plan |
| Setup2.DeployWrites | demo/web/blockchain/setup2.go:184-217 | once packaging succeeded the writes are exactly one of upgrade (seen as installed) or install (otherwise), then an instantiation exactly when that write succeeded and the channel did not list the chaincode |
| Setup2.RerunUpgradesInPlace | demo/web/blockchain/setup2.go:184-208 | when every peer and the channel already list the configured name and version, the only write is a same-version upgrade, and the run succeeds exactly when that upgrade returns no error |
| Setup2.QueryErrorReinstantiates | demo/web/blockchain/setup2.go:261-269 | a failed instantiated query reads as not instantiated, so after a successful deploying write the chaincode is instantiated again |
| Setup2.InitializeAsWritten | demo/web/blockchain/setup2.go:116-119 | as written, success with the session left uninitialized happens exactly when the channel was not seen as joined and the save answered with an empty transaction id |
| Setup2.EmptySaveTxIdReportsSuccess | demo/web/blockchain/setup2.go:117-118 | an empty save transaction id makes the code as written report success without a join and without the channel client, where the model fails |
| Setup2.InstallAndInstantiateCCAsWritten | demo/web/blockchain/setup2.go:212-215 | as written, an instantiation answering with any transaction id, empty included, counts as success |
| Setup2.EmptyInstantiateTxIdReportsSuccess | demo/web/blockchain/setup2.go:213-214 | an empty instantiation transaction id makes the code as written report success, where the model fails |

## Left out

- SDK construction and the configuration file (`fabsdk.New`, `config.FromFile`), the MSP client, the signing identity, and the resource-management, channel, event and ledger clients are foreign calls. Each one is an ok or error outcome in the `Oracle`.
- Chaincode packaging and the endorsement policies are opaque. A policy records only the MSP ids it names.
- Retry timing and backoff (`retry.TestRetryOpts`, `retry.DefaultResMgmtOpts`): their values are not visible. Discovery's budget is a parameter, `retries`. The write calls' own SDK retries are inside their single oracle outcome.
- Which peers an install or upgrade targets is chosen by the SDK. The model records only the request.
- The snapshot does not change in response to a pipeline's own writes. Each check reads the state given at the start.
- The oracle holds one outcome per call kind. No pipeline issues the same write twice within one run.
- Logging (`fmt.Println`), the `Msg` type, and the empty `RegisterAdmin` do nothing the model could observe.
- `demo/web/middleware/fabric.go` and `demo/main.go` are not part of this model. They are process wiring, an HTTP endpoint, and a configuration literal.
- Bytes.ToLower: lower-cases ASCII letters only, whereas Go's `strings.ToLower` also maps non-ASCII letters.
- Setup2.InstallAndInstantiateCC: requires the SDK and resource-management handles. In Go a nil handle panics, and the callers run it only after `Initialize`.
- Setup.InstallAndInstantiateCC: requires the same handles, for the same reason.
- Setup2.CheckCCInstalled: uses the corrected lookup `Inspect.IsCCInstalled`, so a peer whose installed-chaincode query fails reads as not installed and the deploy goes on to `InstallCC`. The code as written panics on a nil response there instead. See the first row of "## Findings".

## Findings

| source | as written | input that shows it | evidently intended | confidence | as-written member | corrected member |
|---|---|---|---|---|---|---|
| demo/web/blockchain/setup2.go:305-309 | the query error is printed but not branched on, and the code then reads `resp.Chaincodes` from a nil response | one discovered peer whose installed-chaincode query fails | a failed query counts as "not installed on that peer" | high (not executed) | Inspect.IsCCInstalledAsWritten, Inspect.InstalledQueryErrorDereferencesNil | Inspect.IsCCInstalled |
| demo/web/blockchain/setup.go:95-96 | the guard returns `errors.WithMessage(err, ...)`, and for a nil `err` that is nil, so an empty transaction id stops `Initialize` and reports success | a save that returns no error and an empty transaction id | the empty transaction id is reported as a save failure | high (not executed) | Setup.InitializeAsWritten, Setup.EmptySaveTxIdReportsSuccess | Setup.Initialize |
| demo/web/blockchain/setup.go:133-134 | same guard after the instantiation: the pipeline stops before creating the channel and event clients, and reports success | an instantiation that returns no error and an empty transaction id | an instantiation failure | high (not executed) | Setup.InstallAndInstantiateCCAsWritten, Setup.EmptyInstantiateTxIdReportsSuccess | Setup.InstallAndInstantiateCC |
| demo/web/blockchain/setup2.go:117-118 | same guard after the save, when the channel was not seen as joined: it returns before the join and the session clients, and reports success | a save that returns no error and an empty transaction id | a save failure | high (not executed) | Setup2.InitializeAsWritten, Setup2.EmptySaveTxIdReportsSuccess | Setup2.Initialize |
| demo/web/blockchain/setup2.go:213-214 | same guard after the instantiation: an empty transaction id reports success | an instantiation that returns no error and an empty transaction id | an instantiation failure | high (not executed) | Setup2.InstallAndInstantiateCCAsWritten, Setup2.EmptyInstantiateTxIdReportsSuccess | Setup2.InstallAndInstantiateCC |
