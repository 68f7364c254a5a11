/** The shared data model of the deployment bootstrapper: what the Fabric SDK
    reports about the network, the outcomes of the calls whose effects are
    opaque, the calls a pipeline issues, and the session state a pipeline
    leaves behind. */
module Fabric {
  import opened Bytes

  /** The answer to a read query against the network: a value, or an error. */
  datatype Reply<+T> = Answer(value: T) | QueryError

  /** One entry of a chaincode query response. The SDK reports more fields;
      `path` stands for all of those the lookups do not compare. */
  datatype CCInfo = CCInfo(name: Str, version: Str, path: Str)

  /** A peer returned by discovery, together with what it would answer to the
      two per-peer queries the bootstrapper issues. */
  datatype Peer = Peer(url: Str, installed: Reply<seq<CCInfo>>, channels: Reply<seq<Str>>)

  /** The chaincode to deploy (`ChainCode` in both setup files). */
  datatype ChainCode = ChainCode(id: Str, version: Str, goPath: Str, srcPath: Str)

  /** The channel to provision (`ChannelConfig` in both setup files). */
  datatype ChannelConfig = ChannelConfig(id: Str, filePath: Str)

  /** Endorsement policies, kept opaque apart from the MSP ids they name. */
  datatype Policy = SignedByMspMember(msp: Str) | SignedByAnyMember(msps: seq<Str>)

  /** The reply to a write that returns a transaction id. */
  datatype TxReply = TxResponse(txId: Str) | TxError

  /** A transaction-returning write counts as successful only when it returned
      no error and a non-empty transaction id. */
  predicate Committed(t: TxReply)
  {
    t.TxResponse? && |t.txId| > 0
  }

  /** The outcome of every call whose effect the model does not look into:
      constructors of SDK clients, the chaincode packager, and the writes. */
  datatype Oracle = Oracle(
    newSdk: bool,
    newResMgmtClient: bool,
    newMspClient: bool,
    signingIdentity: bool,
    newLocalContext: bool,
    newPackage: bool,
    saveChannel: TxReply,
    joinChannel: bool,
    installCC: bool,
    upgradeCC: TxReply,
    instantiateCC: TxReply,
    newChannelClient: bool,
    newEventClient: bool,
    newLedgerClient: bool)

  /** Every SDK call that can fail which a pipeline can issue, with the
      arguments that matter. Calls that return no error (`sdk.Context`,
      `sdk.ChannelContext`, `LocalDiscoveryService`, the policy builders) are
      not recorded. */
  datatype Call =
    | NewSdk(configFile: Str)
    | NewResMgmtClient(user: Str, org: Str)
    | NewMspClient(org: Str)
    | GetSigningIdentity(user: Str)
    | NewLocalContext
    | GetPeers
    | QueryChannels(peer: Str)
    | QueryInstalledChaincodes(peer: Str)
    | QueryInstantiatedChaincodes(channel: Str)
    | NewCCPackage(srcPath: Str, goPath: Str)
    | SaveChannel(channel: Str, configPath: Str, orderer: Str)
    | JoinChannel(channel: Str, orderer: Str)
    | InstallCC(name: Str, path: Str, version: Str)
    | UpgradeCC(channel: Str, name: Str, path: Str, version: Str, policy: Policy)
    | InstantiateCC(channel: Str, name: Str, path: Str, version: Str, args: seq<Str>, policy: Policy)
    | NewChannelClient(channel: Str, user: Str)
    | NewEventClient(channel: Str, user: Str)
    | NewLedgerClient(channel: Str, user: Str)

  /** The calls that change the network. */
  predicate IsWrite(c: Call)
  {
    c.SaveChannel? || c.JoinChannel? || c.InstallCC? || c.UpgradeCC? || c.InstantiateCC?
  }

  predicate ReadOnly(t: seq<Call>)
  {
    forall i :: 0 <= i < |t| ==> !IsWrite(t[i])
  }

  /** The write calls of a trace, in the order they were issued. */
  function Writes(t: seq<Call>): (w: seq<Call>)
    ensures |w| <= |t|
  {
    if |t| == 0 then []
    else if IsWrite(t[0]) then [t[0]] + Writes(t[1..])
    else Writes(t[1..])
  }

  lemma {:induction false} WritesAppend(a: seq<Call>, b: seq<Call>)
    ensures Writes(a + b) == Writes(a) + Writes(b)
  {
    if |a| == 0 {
      assert a + b == b;
    } else {
      assert (a + b)[1..] == a[1..] + b;
      WritesAppend(a[1..], b);
    }
  }

  lemma {:induction false} WritesOfReadOnly(t: seq<Call>)
    requires ReadOnly(t)
    ensures Writes(t) == []
  {
    if |t| > 0 {
      WritesOfReadOnly(t[1..]);
    }
  }

  /** Extending a prefix by one call extends its writes by that call when it
      is a write. */
  lemma WritesSnoc(t: seq<Call>, k: nat)
    requires k < |t|
    ensures Writes(t[..k + 1]) == Writes(t[..k]) + if IsWrite(t[k]) then [t[k]] else []
  {
    assert t[..k + 1] == t[..k] + [t[k]];
    WritesAppend(t[..k], [t[k]]);
    assert [t[k]][1..] == [];
  }

  lemma WritesCons(c: Call, t: seq<Call>)
    ensures Writes([c] + t) == if IsWrite(c) then [c] + Writes(t) else Writes(t)
  {
    assert ([c] + t)[1..] == t;
  }

  /** The instantiation arguments both setup files pass: the single string
      "init". */
  const InitArgs: seq<Str> := [Ascii("init")]

  /** Why a pipeline stopped. */
  datatype Error =
    | AlreadyInitialized
    | SdkFailed
    | ResMgmtClientFailed
    | MspClientFailed
    | SigningIdentityFailed
    | SaveChannelFailed
    | JoinChannelFailed
    | ChannelClientFailed
    | EventClientFailed
    | LedgerClientFailed
    | PackageFailed
    | InstallFailed
    | UpgradeFailed
    | InstantiateFailed

  datatype Outcome = Ok | Err(error: Error)

  /** Which of the session's client handles are set (non-nil). */
  datatype Handles = Handles(sdk: bool, admin: bool, client: bool, event: bool, ledger: bool)

  /** The mutable part of `FabricSetup`: the re-entry flag and the handles. */
  datatype Session = Session(initialized: bool, handles: Handles)

  /** What a pipeline returns: its error result, the SDK calls it issued that
      can fail, in order, and the session state it leaves behind. */
  datatype Run = Run(outcome: Outcome, trace: seq<Call>, after: Session)
}
