/** setup2.go, the inspect-then-act variant: `Initialize` provisions the
    channel only when the first discovered peer does not list it, and
    `InstallAndInstantiateCC` upgrades instead of installing when every
    discovered peer lists the chaincode, and instantiates only when the channel
    does not list it. */
module Setup2 {
  import opened Bytes
  import opened Fabric
  import opened Discovery
  import opened Inspect
  import opened Sequencing

  /** The configuration fields of `FabricSetup` in this variant. */
  datatype Config = Config(
    configFile: Str,
    orgID: Str,
    orgAdmin: Str,
    orgName: Str,
    userName: Str,
    ordererID: Str,
    channel: ChannelConfig,
    chainCode: ChainCode)

  /** The network as the checks observe it: what discovery sees attempt by
      attempt (the peers carry their own query answers), the retry budget of
      the discovery policy, and the channel's instantiated-chaincode answer. */
  datatype Network = Network(discovery: Feed, retries: nat, instantiated: Reply<seq<CCInfo>>)

  /** The quorum both checks pass to `DiscoverLocalPeers`. */
  const ExpectedPeers: int := 2

  /** A check's boolean verdict and the read calls it issued. */
  datatype Observation = Observation(holds: bool, trace: seq<Call>)

  /** A session whose re-entry flag is set has every client handle set. */
  predicate Consistent(s: Session)
  {
    s.initialized ==> s.handles.sdk && s.handles.admin && s.handles.client && s.handles.event && s.handles.ledger
  }

  function Discover(net: Network, o: Oracle): Discovered
  {
    DiscoverLocalPeers(o.newLocalContext, net.discovery, ExpectedPeers, net.retries)
  }

  /** `checkIsJoinedChannel`: any discovery or query error reads as "not
      joined"; otherwise only the first discovered peer is asked. Discovery
      with a quorum of two never succeeds with an empty list, so that peer
      always exists. */
  function CheckIsJoinedChannel(cfg: Config, net: Network, o: Oracle): (obs: Observation)
    ensures var d := Discover(net, o);
            obs.holds <==> d.Found? && d.peers[0].channels.Answer? && cfg.channel.id in d.peers[0].channels.value
    ensures ReadOnly(obs.trace)
    ensures forall i :: 0 <= i < |obs.trace| && obs.trace[i].QueryChannels? ==>
              Discover(net, o).Found? && obs.trace[i] == QueryChannels(Discover(net, o).peers[0].url)
  {
    var d := Discover(net, o);
    var t := DiscoveryCalls(d);
    match d
    case NotFound(_, _) => Observation(false, t)
    case Found(peers, _) =>
      var first := peers[0];
      var asked := t + [QueryChannels(first.url)];
      match IsJoinedChannel(cfg.channel.id, first)
      case QueryError => Observation(false, asked)
      case Answer(joined) => Observation(joined, asked)
  }

  /** `checkCCInstalled`: a discovery error reads as "not installed";
      otherwise every discovered peer is asked, and the verdict is that all of
      them list the exact name and version. */
  function CheckCCInstalled(cfg: Config, net: Network, o: Oracle): (obs: Observation)
    ensures var d := Discover(net, o);
            obs.holds <==> d.Found? && forall k :: 0 <= k < |d.peers| ==>
                             Lists(InstalledEntries(d.peers[k]), cfg.chainCode.id, cfg.chainCode.version)
    ensures ReadOnly(obs.trace)
  {
    var d := Discover(net, o);
    var t := DiscoveryCalls(d);
    match d
    case NotFound(_, _) => Observation(false, t)
    case Found(peers, _) =>
      Observation(IsCCInstalled(cfg.chainCode.id, cfg.chainCode.version, peers), t + InstalledQueries(peers))
  }

  /** `checkCCInstantiated`: a failed channel query reads as "not
      instantiated". */
  function CheckCCInstantiated(cfg: Config, net: Network): (obs: Observation)
    ensures obs.holds <==> net.instantiated.Answer? && Lists(net.instantiated.value, cfg.chainCode.id, cfg.chainCode.version)
    ensures obs.trace == [QueryInstantiatedChaincodes(cfg.channel.id)]
  {
    var live := IsCCInstantiated(net.instantiated, cfg.chainCode.id, cfg.chainCode.version);
    Observation(live.Answer? && live.value, [QueryInstantiatedChaincodes(cfg.channel.id)])
  }

  /** SDK creation, resource management client, MSP client, signing identity. */
  function ClientCalls(cfg: Config): seq<Call>
  {
    [NewSdk(cfg.configFile), NewResMgmtClient(cfg.orgAdmin, cfg.orgName),
     NewMspClient(cfg.orgName), GetSigningIdentity(cfg.orgAdmin)]
  }

  function SaveCall(cfg: Config): Call
  {
    SaveChannel(cfg.channel.id, cfg.channel.filePath, cfg.ordererID)
  }

  function JoinCall(cfg: Config): Call
  {
    JoinChannel(cfg.channel.id, cfg.ordererID)
  }

  /** The channel, event and ledger clients, opened as the user. */
  function SessionCalls(cfg: Config): seq<Call>
  {
    [NewChannelClient(cfg.channel.id, cfg.userName), NewEventClient(cfg.channel.id, cfg.userName),
     NewLedgerClient(cfg.channel.id, cfg.userName)]
  }

  /** The channel writes `Initialize` plans once it has looked at the channel. */
  function ProvisionCalls(cfg: Config, joined: bool): seq<Call>
  {
    if joined then [] else [SaveCall(cfg), JoinCall(cfg)]
  }

  /** `Initialize`: refuse re-entry, build the SDK and the clients, look at
      the channel, save and join it only when it was not seen as joined (a save
      error or an empty transaction id is a failure), open the channel, event
      and ledger clients, and only then mark the session initialized. */
  function Initialize(cfg: Config, net: Network, s: Session, o: Oracle): (r: Run)
    ensures s.initialized ==> r == Run(Err(AlreadyInitialized), [], s)
    ensures var joined := CheckIsJoinedChannel(cfg, net, o).holds;
            !s.initialized ==>
              (r.outcome.Ok? <==> o.newSdk && o.newResMgmtClient && o.newMspClient && o.signingIdentity
                                  && (joined || (Committed(o.saveChannel) && o.joinChannel))
                                  && o.newChannelClient && o.newEventClient && o.newLedgerClient)
    ensures r.after.initialized <==> s.initialized || r.outcome.Ok?
    ensures Consistent(s) ==> Consistent(r.after)
  {
    var clients := ClientCalls(cfg);
    if s.initialized then Run(Err(AlreadyInitialized), [], s)
    else if !o.newSdk then Run(Err(SdkFailed), clients[..1], s)
    else
      var s1 := s.(handles := s.handles.(sdk := true));
      if !o.newResMgmtClient then Run(Err(ResMgmtClientFailed), clients[..2], s1)
      else
        var s2 := s1.(handles := s1.handles.(admin := true));
        if !o.newMspClient then Run(Err(MspClientFailed), clients[..3], s2)
        else if !o.signingIdentity then Run(Err(SigningIdentityFailed), clients, s2)
        else
          var c := Connect(cfg, CheckIsJoinedChannel(cfg, net, o), s2, o);
          Run(c.outcome, clients + c.trace, c.after)
  }

  /** The part of `Initialize` after the clients are up, given what the
      channel check observed: save and join unless the channel was seen as
      joined, then open the channel, event and ledger clients, each handle
      taking its constructor's result, and set the re-entry flag last. */
  function Connect(cfg: Config, obs: Observation, s: Session, o: Oracle): Run
  {
    if !obs.holds && !Committed(o.saveChannel) then
      Run(Err(SaveChannelFailed), obs.trace + [SaveCall(cfg)], s)
    else if !obs.holds && !o.joinChannel then
      Run(Err(JoinChannelFailed), obs.trace + [SaveCall(cfg), JoinCall(cfg)], s)
    else
      var provisioned := obs.trace + ProvisionCalls(cfg, obs.holds);
      var sessionCalls := SessionCalls(cfg);
      var s1 := s.(handles := s.handles.(client := o.newChannelClient));
      if !o.newChannelClient then Run(Err(ChannelClientFailed), provisioned + sessionCalls[..1], s1)
      else
        var s2 := s1.(handles := s1.handles.(event := o.newEventClient));
        if !o.newEventClient then Run(Err(EventClientFailed), provisioned + sessionCalls[..2], s2)
        else
          var s3 := s2.(handles := s2.handles.(ledger := o.newLedgerClient));
          if !o.newLedgerClient then Run(Err(LedgerClientFailed), provisioned + sessionCalls, s3)
          else Run(Ok, provisioned + sessionCalls, s3.(initialized := true))
  }

  function ClientSteps(cfg: Config, o: Oracle): seq<Step>
  {
    [Step(NewSdk(cfg.configFile), o.newSdk, SdkFailed),
     Step(NewResMgmtClient(cfg.orgAdmin, cfg.orgName), o.newResMgmtClient, ResMgmtClientFailed),
     Step(NewMspClient(cfg.orgName), o.newMspClient, MspClientFailed),
     Step(GetSigningIdentity(cfg.orgAdmin), o.signingIdentity, SigningIdentityFailed)]
  }

  function ProvisionSteps(cfg: Config, o: Oracle, joined: bool): seq<Step>
  {
    if joined then []
    else [Step(SaveCall(cfg), Committed(o.saveChannel), SaveChannelFailed),
          Step(JoinCall(cfg), o.joinChannel, JoinChannelFailed)]
  }

  function SessionSteps(cfg: Config, o: Oracle): seq<Step>
  {
    [Step(NewChannelClient(cfg.channel.id, cfg.userName), o.newChannelClient, ChannelClientFailed),
     Step(NewEventClient(cfg.channel.id, cfg.userName), o.newEventClient, EventClientFailed),
     Step(NewLedgerClient(cfg.channel.id, cfg.userName), o.newLedgerClient, LedgerClientFailed)]
  }

  /** The plan `Initialize` runs once past its re-entry guard: the clients, the
      channel check (whose failures read as "not joined" and so never stop the
      run), the provisioning writes when the channel was not seen as joined,
      and the session clients. */
  function InitializePlan(cfg: Config, net: Network, o: Oracle): seq<Step>
  {
    var obs := CheckIsJoinedChannel(cfg, net, o);
    ClientSteps(cfg, o) + ObserveAll(obs.trace) + ProvisionSteps(cfg, o, obs.holds) + SessionSteps(cfg, o)
  }

  lemma ClientStepsRun(cfg: Config, o: Oracle)
    ensures Calls(ClientSteps(cfg, o)) == ClientCalls(cfg)
    ensures var clients := ClientCalls(cfg);
            Sequence(ClientSteps(cfg, o)) ==
              if !o.newSdk then (Err(SdkFailed), clients[..1])
              else if !o.newResMgmtClient then (Err(ResMgmtClientFailed), clients[..2])
              else if !o.newMspClient then (Err(MspClientFailed), clients[..3])
              else if !o.signingIdentity then (Err(SigningIdentityFailed), clients)
              else (Ok, clients)
  {
    var steps := ClientSteps(cfg, o);
    assert Calls(steps) == ClientCalls(cfg);
    if !o.newSdk {
      SequenceFailsAt(steps, 0);
    } else if !o.newResMgmtClient {
      SequenceFailsAt(steps, 1);
    } else if !o.newMspClient {
      SequenceFailsAt(steps, 2);
    } else if !o.signingIdentity {
      SequenceFailsAt(steps, 3);
      assert Calls(steps)[..4] == Calls(steps);
    } else {
      SequenceSucceeds(steps);
    }
  }

  lemma ProvisionStepsRun(cfg: Config, o: Oracle, joined: bool)
    ensures Calls(ProvisionSteps(cfg, o, joined)) == ProvisionCalls(cfg, joined)
    ensures Sequence(ProvisionSteps(cfg, o, joined)) ==
              if !joined && !Committed(o.saveChannel) then (Err(SaveChannelFailed), [SaveCall(cfg)])
              else if !joined && !o.joinChannel then (Err(JoinChannelFailed), [SaveCall(cfg), JoinCall(cfg)])
              else (Ok, ProvisionCalls(cfg, joined))
  {
    var steps := ProvisionSteps(cfg, o, joined);
    if !joined {
      assert Calls(steps) == [SaveCall(cfg), JoinCall(cfg)];
      if !Committed(o.saveChannel) {
        SequenceFailsAt(steps, 0);
      } else if !o.joinChannel {
        SequenceFailsAt(steps, 1);
        assert Calls(steps)[..2] == Calls(steps);
      } else {
        SequenceSucceeds(steps);
      }
    }
  }

  lemma SessionStepsRun(cfg: Config, o: Oracle)
    ensures Calls(SessionSteps(cfg, o)) == SessionCalls(cfg)
    ensures var calls := SessionCalls(cfg);
            Sequence(SessionSteps(cfg, o)) ==
              if !o.newChannelClient then (Err(ChannelClientFailed), calls[..1])
              else if !o.newEventClient then (Err(EventClientFailed), calls[..2])
              else if !o.newLedgerClient then (Err(LedgerClientFailed), calls)
              else (Ok, calls)
  {
    var steps := SessionSteps(cfg, o);
    assert Calls(steps) == SessionCalls(cfg);
    if !o.newChannelClient {
      SequenceFailsAt(steps, 0);
    } else if !o.newEventClient {
      SequenceFailsAt(steps, 1);
    } else if !o.newLedgerClient {
      SequenceFailsAt(steps, 2);
      assert Calls(steps)[..3] == Calls(steps);
    } else {
      SequenceSucceeds(steps);
    }
  }

  /** Past the re-entry guard, `Initialize` is abort-on-first-failure over its
      plan: same error, same calls in the same order. */
  lemma InitializeFollowsPlan(cfg: Config, net: Network, s: Session, o: Oracle)
    requires !s.initialized
    ensures var r := Initialize(cfg, net, s, o);
            Sequence(InitializePlan(cfg, net, o)) == (r.outcome, r.trace)
  {
    var r := Initialize(cfg, net, s, o);
    var obs := CheckIsJoinedChannel(cfg, net, o);
    var head := ClientSteps(cfg, o);
    var watch := ObserveAll(obs.trace);
    var prov := ProvisionSteps(cfg, o, obs.holds);
    var tail := SessionSteps(cfg, o);
    var rest := watch + (prov + tail);
    assert InitializePlan(cfg, net, o) == head + rest;
    SequenceAppend(head, rest);
    ClientStepsRun(cfg, o);
    if o.newSdk && o.newResMgmtClient && o.newMspClient && o.signingIdentity {
      ConnectFollowsPlan(cfg, obs, s.(handles := s.handles.(sdk := true, admin := true)), o);
    }
  }

  /** `Connect` is abort-on-first-failure over the observation's calls
      (which cannot fail), the provisioning steps and the session steps. */
  lemma ConnectFollowsPlan(cfg: Config, obs: Observation, s: Session, o: Oracle)
    ensures var c := Connect(cfg, obs, s, o);
            Sequence(ObserveAll(obs.trace) + (ProvisionSteps(cfg, o, obs.holds) + SessionSteps(cfg, o)))
              == (c.outcome, c.trace)
  {
    var prov := ProvisionSteps(cfg, o, obs.holds);
    var tail := SessionSteps(cfg, o);
    SequenceObserved(obs.trace, prov + tail);
    SequenceAppend(prov, tail);
    ProvisionStepsRun(cfg, o, obs.holds);
    if Sequence(prov).0.Ok? {
      ConnectProvisioned(cfg, obs, s, o);
    }
  }

  lemma ConnectProvisioned(cfg: Config, obs: Observation, s: Session, o: Oracle)
    requires obs.holds || (Committed(o.saveChannel) && o.joinChannel)
    ensures var c := Connect(cfg, obs, s, o);
            var t := Sequence(SessionSteps(cfg, o));
            c.outcome == t.0 && c.trace == obs.trace + (ProvisionCalls(cfg, obs.holds) + t.1)
  {
    SessionStepsRun(cfg, o);
    var pc := ProvisionCalls(cfg, obs.holds);
    var t := Sequence(SessionSteps(cfg, o));
    assert obs.trace + (pc + t.1) == obs.trace + pc + t.1;
  }

  /** The writes of `Initialize`: none when the channel was seen as joined,
      otherwise a prefix of save-then-join, never a join without a save. */
  lemma InitializeWrites(cfg: Config, net: Network, s: Session, o: Oracle)
    ensures var w := Writes(Initialize(cfg, net, s, o).trace);
            var joined := CheckIsJoinedChannel(cfg, net, o).holds;
            (joined ==> w == [])
            && w <= [SaveCall(cfg), JoinCall(cfg)]
            && (|w| == 2 ==> Committed(o.saveChannel))
            && (!s.initialized && o.newSdk && o.newResMgmtClient && o.newMspClient && o.signingIdentity && !joined
                ==> |w| >= 1)
  {
    var r := Initialize(cfg, net, s, o);
    var clients := ClientCalls(cfg);
    if s.initialized {
    } else if !(o.newSdk && o.newResMgmtClient && o.newMspClient && o.signingIdentity) {
      var k := if !o.newSdk then 1 else if !o.newResMgmtClient then 2 else if !o.newMspClient then 3 else 4;
      assert r.trace == clients[..k];
      ReadOnlyPrefix(clients, k);
    } else {
      var obs := CheckIsJoinedChannel(cfg, net, o);
      var s2 := s.(handles := s.handles.(sdk := true, admin := true));
      var c := Connect(cfg, obs, s2, o);
      assert r.trace == clients + c.trace;
      ReadOnlyPrefix(clients, |clients|);
      assert clients[..|clients|] == clients;
      WritesAppend(clients, c.trace);
      ConnectWrites(cfg, obs, s2, o);
    }
  }

  /** The writes `Connect` adds to a read-only observation. */
  lemma ConnectWrites(cfg: Config, obs: Observation, s: Session, o: Oracle)
    requires ReadOnly(obs.trace)
    ensures var w := Writes(Connect(cfg, obs, s, o).trace);
            (obs.holds ==> w == [])
            && w <= [SaveCall(cfg), JoinCall(cfg)]
            && (|w| == 2 ==> Committed(o.saveChannel))
            && (!obs.holds ==> |w| >= 1)
  {
    var c := Connect(cfg, obs, s, o);
    WritesOfReadOnly(obs.trace);
    var save := SaveCall(cfg);
    var join := JoinCall(cfg);
    if !obs.holds && !Committed(o.saveChannel) {
      WritesCons(save, []);
      WritesAppend(obs.trace, [save]);
    } else if !obs.holds && !o.joinChannel {
      ProvisionWrites(cfg, false);
      WritesAppend(obs.trace, [save, join]);
    } else {
      var prov := ProvisionCalls(cfg, obs.holds);
      ProvisionWrites(cfg, obs.holds);
      WritesAppend(obs.trace, prov);
      var sessionCalls := SessionCalls(cfg);
      var k := if !o.newChannelClient then 1 else if !o.newEventClient then 2 else 3;
      assert c.trace == obs.trace + prov + sessionCalls[..k];
      ReadOnlyPrefix(sessionCalls, k);
      WritesAppend(obs.trace + prov, sessionCalls[..k]);
    }
  }

  lemma ReadOnlyPrefix(t: seq<Call>, k: nat)
    requires ReadOnly(t) && k <= |t|
    ensures Writes(t[..k]) == []
  {
    assert ReadOnly(t[..k]);
    WritesOfReadOnly(t[..k]);
  }

  lemma ProvisionWrites(cfg: Config, joined: bool)
    ensures Writes(ProvisionCalls(cfg, joined)) == ProvisionCalls(cfg, joined)
  {
    if !joined {
      WritesCons(JoinCall(cfg), []);
      WritesCons(SaveCall(cfg), [JoinCall(cfg)]);
    }
  }

  /** A second `Initialize` after a successful one issues no call at all, so two
      runs save and join the channel at most once. */
  lemma InitializeTwice(cfg: Config, net1: Network, net2: Network, s: Session, o1: Oracle, o2: Oracle)
    requires Initialize(cfg, net1, s, o1).outcome.Ok?
    ensures var second := Initialize(cfg, net2, Initialize(cfg, net1, s, o1).after, o2);
            second.outcome == Err(AlreadyInitialized) && second.trace == []
  {
  }

  function PackageCall(cfg: Config): Call
  {
    NewCCPackage(cfg.chainCode.srcPath, cfg.chainCode.goPath)
  }

  /** The upgrade request: same name, path and version as configured, under a
      policy signed by a member of the configured organization. */
  function UpgradeCall(cfg: Config): Call
  {
    UpgradeCC(cfg.channel.id, cfg.chainCode.id, cfg.chainCode.srcPath, cfg.chainCode.version,
              SignedByMspMember(cfg.orgID))
  }

  function InstallCall(cfg: Config): Call
  {
    InstallCC(cfg.chainCode.id, cfg.chainCode.srcPath, cfg.chainCode.version)
  }

  /** The instantiation request. This variant passes the Go path, not the
      source path, as the chaincode path. */
  function InstantiateCall(cfg: Config): Call
  {
    InstantiateCC(cfg.channel.id, cfg.chainCode.id, cfg.chainCode.goPath, cfg.chainCode.version,
                  InitArgs, SignedByAnyMember([cfg.orgID]))
  }

  /** The deploying write: an upgrade when the chaincode was seen on every
      peer, an install otherwise. */
  function DeployCall(cfg: Config, installed: bool): Call
  {
    if installed then UpgradeCall(cfg) else InstallCall(cfg)
  }

  /** Whether the deploying write succeeded: an upgrade is judged by its error
      alone (its transaction id is not looked at), an install by its error. */
  function DeployOk(o: Oracle, installed: bool): bool
  {
    if installed then o.upgradeCC.TxResponse? else o.installCC
  }

  /** `InstallAndInstantiateCC`: package, then upgrade or install depending on
      what the peers report, then instantiate unless the channel reports the
      chaincode (an error or an empty transaction id is a failure). It leaves
      the session as it was. The handles it uses exist only after
      `Initialize` got past SDK and resource management client creation. */
  function InstallAndInstantiateCC(cfg: Config, net: Network, s: Session, o: Oracle): (r: Run)
    requires s.handles.sdk && s.handles.admin
    ensures r.after == s
    ensures var installed := CheckCCInstalled(cfg, net, o).holds;
            var instantiated := CheckCCInstantiated(cfg, net).holds;
            r.outcome.Ok? <==> o.newPackage && DeployOk(o, installed) && (instantiated || Committed(o.instantiateCC))
    ensures InstantiateCall(cfg) in r.trace && !Committed(o.instantiateCC) ==> r.outcome == Err(InstantiateFailed)
    ensures |r.trace| >= 1 && r.trace[0] == PackageCall(cfg)
  {
    if !o.newPackage then Run(Err(PackageFailed), [PackageCall(cfg)], s)
    else
      var d := Deploy(cfg, CheckCCInstalled(cfg, net, o), CheckCCInstantiated(cfg, net), o);
      Run(d.0, [PackageCall(cfg)] + d.1, s)
  }

  /** The part of `InstallAndInstantiateCC` after packaging, given what the
      installed and instantiated checks observe: the deploying write, then
      (only once it succeeded) the instantiated check and, unless that check
      holds, the instantiation. */
  function Deploy(cfg: Config, installed: Observation, live: Observation, o: Oracle): (Outcome, seq<Call>)
  {
    var deployed := installed.trace + [DeployCall(cfg, installed.holds)];
    if !DeployOk(o, installed.holds) then
      (Err(if installed.holds then UpgradeFailed else InstallFailed), deployed)
    else
      var checked := deployed + live.trace;
      if live.holds then (Ok, checked)
      else if !Committed(o.instantiateCC) then (Err(InstantiateFailed), checked + [InstantiateCall(cfg)])
      else (Ok, checked + [InstantiateCall(cfg)])
  }

  /** The plan of `InstallAndInstantiateCC`: package, then the plan of
      `Deploy` for what the two checks observe. */
  function DeployPlan(cfg: Config, net: Network, o: Oracle): seq<Step>
  {
    [Step(PackageCall(cfg), o.newPackage, PackageFailed)]
    + DeploySteps(cfg, CheckCCInstalled(cfg, net, o), CheckCCInstantiated(cfg, net), o)
  }

  /** The installed check (whose failures read as "not installed"), the
      deploying write, the instantiated check, and the instantiation unless
      the channel reported the chaincode. */
  function DeploySteps(cfg: Config, installed: Observation, live: Observation, o: Oracle): seq<Step>
  {
    ObserveAll(installed.trace)
    + ([DeployStep(cfg, o, installed.holds)]
       + (ObserveAll(live.trace)
          + (if live.holds then [] else [Step(InstantiateCall(cfg), Committed(o.instantiateCC), InstantiateFailed)])))
  }

  function DeployStep(cfg: Config, o: Oracle, installed: bool): Step
  {
    Step(DeployCall(cfg, installed), DeployOk(o, installed), if installed then UpgradeFailed else InstallFailed)
  }

  lemma DeployRunsSteps(cfg: Config, installed: Observation, live: Observation, o: Oracle)
    ensures Sequence(DeploySteps(cfg, installed, live, o)) == Deploy(cfg, installed, live, o)
  {
    var deploy := DeployStep(cfg, o, installed.holds);
    var last := if live.holds then [] else [Step(InstantiateCall(cfg), Committed(o.instantiateCC), InstantiateFailed)];
    var afterDeploy := ObserveAll(live.trace) + last;
    SequenceObserved(installed.trace, [deploy] + afterDeploy);
    SequenceCons(deploy, afterDeploy);
    if deploy.ok {
      SequenceObserved(live.trace, last);
      var tl := Sequence(last).1;
      if live.holds {
        assert tl == [];
        assert live.trace + tl == live.trace;
      } else {
        SequenceCons(last[0], []);
        assert last == [last[0]] + [];
        assert tl == [InstantiateCall(cfg)];
      }
      Regroup(installed.trace, [deploy.call], live.trace, tl);
      var d := Deploy(cfg, installed, live, o);
      var q := Sequence(DeploySteps(cfg, installed, live, o));
      assert q.1 == installed.trace + ([deploy.call] + (live.trace + tl));
      assert d.1 == installed.trace + [deploy.call] + live.trace + tl;
      assert q.0 == Sequence(last).0;
      assert d.0 == Sequence(last).0;
    }
  }

  /** `InstallAndInstantiateCC` is abort-on-first-failure over its plan. */
  lemma DeployFollowsPlan(cfg: Config, net: Network, s: Session, o: Oracle)
    requires s.handles.sdk && s.handles.admin
    ensures var r := InstallAndInstantiateCC(cfg, net, s, o);
            Sequence(DeployPlan(cfg, net, o)) == (r.outcome, r.trace)
  {
    var installed := CheckCCInstalled(cfg, net, o);
    var live := CheckCCInstantiated(cfg, net);
    SequenceCons(Step(PackageCall(cfg), o.newPackage, PackageFailed), DeploySteps(cfg, installed, live, o));
    DeployRunsSteps(cfg, installed, live, o);
  }

  /** The writes of `InstallAndInstantiateCC`: once packaging succeeded,
      exactly one of upgrade or install, decided by the installed check alone;
      then an instantiation exactly when the deploying write succeeded and the
      channel did not report the chaincode. */
  lemma DeployWrites(cfg: Config, net: Network, s: Session, o: Oracle)
    requires s.handles.sdk && s.handles.admin
    ensures var installed := CheckCCInstalled(cfg, net, o).holds;
            var instantiated := CheckCCInstantiated(cfg, net).holds;
            Writes(InstallAndInstantiateCC(cfg, net, s, o).trace) ==
              if !o.newPackage then []
              else [DeployCall(cfg, installed)]
                   + (if DeployOk(o, installed) && !instantiated then [InstantiateCall(cfg)] else [])
  {
    var r := InstallAndInstantiateCC(cfg, net, s, o);
    var pkg := PackageCall(cfg);
    WritesCons(pkg, []);
    if o.newPackage {
      var installed := CheckCCInstalled(cfg, net, o);
      var live := CheckCCInstantiated(cfg, net);
      WritesCons(pkg, Deploy(cfg, installed, live, o).1);
      DeployOnlyWrites(cfg, installed, live, o);
    }
  }

  /** The writes of `Deploy` when both observations only read. */
  lemma DeployOnlyWrites(cfg: Config, installed: Observation, live: Observation, o: Oracle)
    requires ReadOnly(installed.trace) && ReadOnly(live.trace)
    ensures Writes(Deploy(cfg, installed, live, o).1) ==
              [DeployCall(cfg, installed.holds)]
              + (if DeployOk(o, installed.holds) && !live.holds then [InstantiateCall(cfg)] else [])
  {
    var dc := DeployCall(cfg, installed.holds);
    var deployed := installed.trace + [dc];
    assert Writes(deployed) == [dc] by {
      WritesOfReadOnly(installed.trace);
      WritesCons(dc, []);
      WritesAppend(installed.trace, [dc]);
    }
    if DeployOk(o, installed.holds) {
      var checked := deployed + live.trace;
      assert Writes(checked) == [dc] by {
        WritesOfReadOnly(live.trace);
        WritesAppend(deployed, live.trace);
      }
      if !live.holds {
        WritesCons(InstantiateCall(cfg), []);
        WritesAppend(checked, [InstantiateCall(cfg)]);
      }
    }
  }

  /** Re-running against a network where every discovered peer already lists
      the configured name and version and the channel lists it as
      instantiated: the run still issues one write, an upgrade to the very
      version already installed, and nothing else; it succeeds exactly when
      that upgrade returns no error. */
  lemma RerunUpgradesInPlace(cfg: Config, net: Network, s: Session, o: Oracle, peers: seq<Peer>, path: Str)
    requires s.handles.sdk && s.handles.admin
    requires o.newLocalContext && o.newPackage
    requires net.discovery == Feed([], Answer(peers)) && |peers| >= ExpectedPeers
    requires forall k :: 0 <= k < |peers| ==>
               peers[k].installed == Answer([CCInfo(cfg.chainCode.id, cfg.chainCode.version, path)])
    requires net.instantiated == Answer([CCInfo(cfg.chainCode.id, cfg.chainCode.version, path)])
    ensures var r := InstallAndInstantiateCC(cfg, net, s, o);
            (r.outcome.Ok? <==> o.upgradeCC.TxResponse?)
            && Writes(r.trace) == [UpgradeCC(cfg.channel.id, cfg.chainCode.id, cfg.chainCode.srcPath,
                                             cfg.chainCode.version, SignedByMspMember(cfg.orgID))]
  {
    StaticDiscovery(o.newLocalContext, Answer(peers), ExpectedPeers, net.retries);
    var d := Discover(net, o);
    assert d.peers == peers;
    forall k | 0 <= k < |peers|
      ensures Lists(InstalledEntries(peers[k]), cfg.chainCode.id, cfg.chainCode.version)
    {
      assert Matches(InstalledEntries(peers[k])[0], cfg.chainCode.id, cfg.chainCode.version);
    }
    assert Matches(net.instantiated.value[0], cfg.chainCode.id, cfg.chainCode.version);
    DeployWrites(cfg, net, s, o);
  }

  /** A failed instantiated-chaincode query reads as "not instantiated", so
      once the deploying write succeeded the chaincode is instantiated again. */
  lemma QueryErrorReinstantiates(cfg: Config, net: Network, s: Session, o: Oracle)
    requires s.handles.sdk && s.handles.admin
    requires net.instantiated.QueryError?
    requires o.newPackage && DeployOk(o, CheckCCInstalled(cfg, net, o).holds)
    ensures InstantiateCall(cfg) in Writes(InstallAndInstantiateCC(cfg, net, s, o).trace)
  {
    DeployWrites(cfg, net, s, o);
  }

  /** The error value `Initialize` returns as written: when the channel was not
      seen as joined and the save answers with no error but an empty
      transaction id, the guard returns `errors.WithMessage(nil, ...)`, which
      is nil, so the pipeline stops and reports success. */
  function InitializeAsWritten(cfg: Config, net: Network, s: Session, o: Oracle): (r: Run)
    ensures r.trace == Initialize(cfg, net, s, o).trace && r.after == Initialize(cfg, net, s, o).after
    ensures r.outcome.Ok? && !r.after.initialized <==>
              !s.initialized && o.newSdk && o.newResMgmtClient && o.newMspClient && o.signingIdentity
              && !CheckIsJoinedChannel(cfg, net, o).holds && o.saveChannel == TxResponse([])
  {
    var r := Initialize(cfg, net, s, o);
    if r.outcome == Err(SaveChannelFailed) && o.saveChannel.TxResponse? then r.(outcome := Ok) else r
  }

  /** An empty transaction id from the save: as written `Initialize` reports
      success, yet it never joined the channel and left the session
      uninitialized without a channel client; the model reports the save
      failure. */
  lemma EmptySaveTxIdReportsSuccess(cfg: Config, net: Network, s: Session, o: Oracle)
    requires !s.initialized && !s.handles.client
    requires o.newSdk && o.newResMgmtClient && o.newMspClient && o.signingIdentity
    requires !CheckIsJoinedChannel(cfg, net, o).holds && o.saveChannel == TxResponse([])
    ensures var w := InitializeAsWritten(cfg, net, s, o);
            w.outcome == Ok && !w.after.initialized && JoinCall(cfg) !in w.trace && !w.after.handles.client
    ensures Initialize(cfg, net, s, o).outcome == Err(SaveChannelFailed)
  {
  }

  /** The error value `InstallAndInstantiateCC` returns as written: an
      instantiation that answers with no error but an empty transaction id
      reports success. */
  function InstallAndInstantiateCCAsWritten(cfg: Config, net: Network, s: Session, o: Oracle): (r: Run)
    requires s.handles.sdk && s.handles.admin
    ensures r.trace == InstallAndInstantiateCC(cfg, net, s, o).trace && r.after == s
    ensures var installed := CheckCCInstalled(cfg, net, o).holds;
            var instantiated := CheckCCInstantiated(cfg, net).holds;
            r.outcome.Ok? <==> o.newPackage && DeployOk(o, installed) && (instantiated || o.instantiateCC.TxResponse?)
  {
    var r := InstallAndInstantiateCC(cfg, net, s, o);
    if r.outcome == Err(InstantiateFailed) && o.instantiateCC.TxResponse? then r.(outcome := Ok) else r
  }

  /** An empty transaction id from the instantiation of a chaincode the
      channel does not list: as written the pipeline reports success although
      no instantiation was confirmed; the model reports the failure. */
  lemma EmptyInstantiateTxIdReportsSuccess(cfg: Config, net: Network, s: Session, o: Oracle)
    requires s.handles.sdk && s.handles.admin
    requires o.newPackage && DeployOk(o, CheckCCInstalled(cfg, net, o).holds)
    requires !CheckCCInstantiated(cfg, net).holds && o.instantiateCC == TxResponse([])
    ensures var w := InstallAndInstantiateCCAsWritten(cfg, net, s, o);
            w.outcome == Ok && InstantiateCall(cfg) in w.trace
    ensures InstallAndInstantiateCC(cfg, net, s, o).outcome == Err(InstantiateFailed)
  {
    DeployWrites(cfg, net, s, o);
  }
}
