/** setup.go, the unconditional variant `main.go` is written against:
    `Initialize` always creates and then joins the channel, and
    `InstallAndInstantiateCC` always installs, then instantiates, then opens
    the channel and event clients. */
module Setup {
  import opened Bytes
  import opened Fabric
  import opened Sequencing

  datatype Org = Org(id: Str, admin: Str, name: Str, user: Str, ordererID: Str)

  /** The configuration fields of `FabricSetup`. */
  datatype Config = Config(configFile: Str, org: Org, channel: ChannelConfig, chainCode: ChainCode)

  /** The MSP id the instantiation policy names: a literal in this variant,
      not the configured organization id. */
  const PolicyMsp: Str := Ascii("org1.hf.chainhero.io")

  /** A session whose re-entry flag is set has its SDK and resource management
      handles set. */
  predicate Consistent(s: Session)
  {
    s.initialized ==> s.handles.sdk && s.handles.admin
  }

  /** The calls `Initialize` plans: SDK creation, resource management client,
      MSP client, signing identity, channel save, channel join. */
  function InitializeCalls(cfg: Config): seq<Call>
  {
    [NewSdk(cfg.configFile), NewResMgmtClient(cfg.org.admin, cfg.org.name),
     NewMspClient(cfg.org.name), GetSigningIdentity(cfg.org.admin),
     SaveCall(cfg), JoinCall(cfg)]
  }

  function SaveCall(cfg: Config): Call
  {
    SaveChannel(cfg.channel.id, cfg.channel.filePath, cfg.org.ordererID)
  }

  function JoinCall(cfg: Config): Call
  {
    JoinChannel(cfg.channel.id, cfg.org.ordererID)
  }

  /** `Initialize`: refuse re-entry, build the SDK and the clients, save the
      channel (an error or an empty transaction id is a failure), join it, and
      only then mark the session initialized. */
  function Initialize(cfg: Config, s: Session, o: Oracle): (r: Run)
    ensures s.initialized ==> r == Run(Err(AlreadyInitialized), [], s)
    ensures !s.initialized ==>
              (r.outcome.Ok? <==> o.newSdk && o.newResMgmtClient && o.newMspClient && o.signingIdentity
                                  && Committed(o.saveChannel) && o.joinChannel)
    ensures r.after.initialized <==> s.initialized || r.outcome.Ok?
    ensures Consistent(s) ==> Consistent(r.after)
    ensures r.trace <= InitializeCalls(cfg)
    ensures r.outcome.Ok? ==> r.trace == InitializeCalls(cfg)
    ensures JoinCall(cfg) in r.trace ==> Committed(o.saveChannel) && SaveCall(cfg) in r.trace
    ensures !Committed(o.saveChannel) ==> JoinCall(cfg) !in r.trace && r.outcome.Err?
    ensures !o.joinChannel ==> !r.after.initialized || s.initialized
  {
    var calls := InitializeCalls(cfg);
    if s.initialized then Run(Err(AlreadyInitialized), [], s)
    else if !o.newSdk then Run(Err(SdkFailed), calls[..1], s)
    else
      var s1 := s.(handles := s.handles.(sdk := true));
      if !o.newResMgmtClient then Run(Err(ResMgmtClientFailed), calls[..2], s1)
      else
        var s2 := s1.(handles := s1.handles.(admin := true));
        if !o.newMspClient then Run(Err(MspClientFailed), calls[..3], s2)
        else if !o.signingIdentity then Run(Err(SigningIdentityFailed), calls[..4], s2)
        else if !Committed(o.saveChannel) then Run(Err(SaveChannelFailed), calls[..5], s2)
        else if !o.joinChannel then Run(Err(JoinChannelFailed), calls, s2)
        else Run(Ok, calls, s2.(initialized := true))
  }

  /** The plan `Initialize` runs once past its re-entry guard. */
  function InitializePlan(cfg: Config, o: Oracle): seq<Step>
  {
    [Step(NewSdk(cfg.configFile), o.newSdk, SdkFailed),
     Step(NewResMgmtClient(cfg.org.admin, cfg.org.name), o.newResMgmtClient, ResMgmtClientFailed),
     Step(NewMspClient(cfg.org.name), o.newMspClient, MspClientFailed),
     Step(GetSigningIdentity(cfg.org.admin), o.signingIdentity, SigningIdentityFailed),
     Step(SaveCall(cfg), Committed(o.saveChannel), SaveChannelFailed),
     Step(JoinCall(cfg), o.joinChannel, JoinChannelFailed)]
  }

  /** Past the guard, `Initialize` is the abort-on-first-failure run of its
      plan: same error, same calls. */
  lemma InitializeFollowsPlan(cfg: Config, s: Session, o: Oracle)
    requires !s.initialized
    ensures var r := Initialize(cfg, s, o);
            (r.outcome, r.trace) == Sequence(InitializePlan(cfg, o))
  {
    InitializePlanRun(cfg, o);
  }

  /** The abort-on-first-failure run of the `Initialize` plan, branch by
      branch. */
  lemma InitializePlanRun(cfg: Config, o: Oracle)
    ensures var calls := InitializeCalls(cfg);
            Sequence(InitializePlan(cfg, o)) ==
              if !o.newSdk then (Err(SdkFailed), calls[..1])
              else if !o.newResMgmtClient then (Err(ResMgmtClientFailed), calls[..2])
              else if !o.newMspClient then (Err(MspClientFailed), calls[..3])
              else if !o.signingIdentity then (Err(SigningIdentityFailed), calls[..4])
              else if !Committed(o.saveChannel) then (Err(SaveChannelFailed), calls[..5])
              else if !o.joinChannel then (Err(JoinChannelFailed), calls)
              else (Ok, calls)
  {
    var plan := InitializePlan(cfg, o);
    assert Calls(plan) == InitializeCalls(cfg);
    if !o.newSdk {
      SequenceFailsAt(plan, 0);
    } else if !o.newResMgmtClient {
      SequenceFailsAt(plan, 1);
    } else if !o.newMspClient {
      SequenceFailsAt(plan, 2);
    } else if !o.signingIdentity {
      SequenceFailsAt(plan, 3);
    } else if !Committed(o.saveChannel) {
      SequenceFailsAt(plan, 4);
    } else if !o.joinChannel {
      SequenceFailsAt(plan, 5);
      assert Calls(plan)[..6] == Calls(plan);
    } else {
      SequenceSucceeds(plan);
    }
  }

  /** The writes of `Initialize` are always a prefix of save-then-join: it never
      checks whether the channel exists, and never joins without a saved
      channel. */
  lemma InitializeWrites(cfg: Config, s: Session, o: Oracle)
    ensures var w := Writes(Initialize(cfg, s, o).trace);
            w <= [SaveCall(cfg), JoinCall(cfg)]
            && (|w| == 2 ==> Committed(o.saveChannel))
  {
    var r := Initialize(cfg, s, o);
    var k := |r.trace|;
    assert r.trace == InitializeCalls(cfg)[..k];
    InitializeCallsWrites(cfg, k);
    assert k == 6 ==> Committed(o.saveChannel);
  }

  /** The writes among the first `k` planned `Initialize` calls. */
  lemma {:induction false} InitializeCallsWrites(cfg: Config, k: nat)
    requires k <= 6
    ensures Writes(InitializeCalls(cfg)[..k]) ==
              if k <= 4 then [] else if k == 5 then [SaveCall(cfg)] else [SaveCall(cfg), JoinCall(cfg)]
  {
    if k > 0 {
      InitializeCallsWrites(cfg, k - 1);
      WritesSnoc(InitializeCalls(cfg), k - 1);
    }
  }

  /** A second `Initialize` after a successful one issues no call at all, so two
      runs save and join the channel at most once. */
  lemma InitializeTwice(cfg: Config, s: Session, o1: Oracle, o2: Oracle)
    requires Initialize(cfg, s, o1).outcome.Ok?
    ensures var second := Initialize(cfg, Initialize(cfg, s, o1).after, o2);
            second.outcome == Err(AlreadyInitialized) && second.trace == []
  {
  }

  function PackageCall(cfg: Config): Call
  {
    NewCCPackage(cfg.chainCode.srcPath, cfg.chainCode.goPath)
  }

  function InstallCall(cfg: Config): Call
  {
    InstallCC(cfg.chainCode.id, cfg.chainCode.srcPath, cfg.chainCode.version)
  }

  function InstantiateCall(cfg: Config): Call
  {
    InstantiateCC(cfg.channel.id, cfg.chainCode.id, cfg.chainCode.srcPath, cfg.chainCode.version,
                  InitArgs, SignedByAnyMember([PolicyMsp]))
  }

  function ChannelClientCall(cfg: Config): Call
  {
    NewChannelClient(cfg.channel.id, cfg.org.user)
  }

  function EventClientCall(cfg: Config): Call
  {
    NewEventClient(cfg.channel.id, cfg.org.user)
  }

  /** The calls `InstallAndInstantiateCC` plans. */
  function DeployCalls(cfg: Config): seq<Call>
  {
    [PackageCall(cfg), InstallCall(cfg), InstantiateCall(cfg), ChannelClientCall(cfg), EventClientCall(cfg)]
  }

  /** `InstallAndInstantiateCC`: package, install (with no look at what is
      installed), instantiate (an error or an empty transaction id is a
      failure), then the channel client and the event client. Each client
      handle is overwritten with the constructor's result, so a failing
      constructor leaves its handle nil. The handles it uses exist only after
      `Initialize` got past SDK and resource management client creation. */
  function InstallAndInstantiateCC(cfg: Config, s: Session, o: Oracle): (r: Run)
    requires s.handles.sdk && s.handles.admin
    ensures r.after.initialized == s.initialized
    ensures Consistent(s) ==> Consistent(r.after)
    ensures r.outcome.Ok? <==> o.newPackage && o.installCC && Committed(o.instantiateCC)
                               && o.newChannelClient && o.newEventClient
    ensures r.trace <= DeployCalls(cfg)
    ensures o.newPackage ==> |r.trace| >= 2 && r.trace[1] == InstallCall(cfg)
    ensures !o.installCC ==> InstantiateCall(cfg) !in r.trace
    ensures !Committed(o.instantiateCC) ==>
              r.outcome.Err? && r.after == s
              && ChannelClientCall(cfg) !in r.trace && EventClientCall(cfg) !in r.trace
    ensures r.after.handles != s.handles ==> o.newPackage && o.installCC && Committed(o.instantiateCC)
    ensures o.newPackage && o.installCC && Committed(o.instantiateCC) && o.newChannelClient && !o.newEventClient ==>
              r.outcome == Err(EventClientFailed) && r.after.handles.client && !r.after.handles.event
  {
    var calls := DeployCalls(cfg);
    if !o.newPackage then Run(Err(PackageFailed), calls[..1], s)
    else if !o.installCC then Run(Err(InstallFailed), calls[..2], s)
    else if !Committed(o.instantiateCC) then Run(Err(InstantiateFailed), calls[..3], s)
    else
      var s1 := s.(handles := s.handles.(client := o.newChannelClient));
      if !o.newChannelClient then Run(Err(ChannelClientFailed), calls[..4], s1)
      else
        var s2 := s1.(handles := s1.handles.(event := o.newEventClient));
        if !o.newEventClient then Run(Err(EventClientFailed), calls, s2)
        else Run(Ok, calls, s2)
  }

  /** The plan `InstallAndInstantiateCC` runs. */
  function DeployPlan(cfg: Config, o: Oracle): seq<Step>
  {
    [Step(PackageCall(cfg), o.newPackage, PackageFailed),
     Step(InstallCall(cfg), o.installCC, InstallFailed),
     Step(InstantiateCall(cfg), Committed(o.instantiateCC), InstantiateFailed),
     Step(ChannelClientCall(cfg), o.newChannelClient, ChannelClientFailed),
     Step(EventClientCall(cfg), o.newEventClient, EventClientFailed)]
  }

  /** `InstallAndInstantiateCC` is the abort-on-first-failure run of its plan. */
  lemma DeployFollowsPlan(cfg: Config, s: Session, o: Oracle)
    requires s.handles.sdk && s.handles.admin
    ensures var r := InstallAndInstantiateCC(cfg, s, o);
            (r.outcome, r.trace) == Sequence(DeployPlan(cfg, o))
  {
    DeployPlanRun(cfg, o);
  }

  /** The abort-on-first-failure run of the deploy plan, branch by branch. */
  lemma DeployPlanRun(cfg: Config, o: Oracle)
    ensures var calls := DeployCalls(cfg);
            Sequence(DeployPlan(cfg, o)) ==
              if !o.newPackage then (Err(PackageFailed), calls[..1])
              else if !o.installCC then (Err(InstallFailed), calls[..2])
              else if !Committed(o.instantiateCC) then (Err(InstantiateFailed), calls[..3])
              else if !o.newChannelClient then (Err(ChannelClientFailed), calls[..4])
              else if !o.newEventClient then (Err(EventClientFailed), calls)
              else (Ok, calls)
  {
    var plan := DeployPlan(cfg, o);
    assert Calls(plan) == DeployCalls(cfg);
    if !o.newPackage {
      SequenceFailsAt(plan, 0);
    } else if !o.installCC {
      SequenceFailsAt(plan, 1);
    } else if !Committed(o.instantiateCC) {
      SequenceFailsAt(plan, 2);
    } else if !o.newChannelClient {
      SequenceFailsAt(plan, 3);
    } else if !o.newEventClient {
      SequenceFailsAt(plan, 4);
      assert Calls(plan)[..5] == Calls(plan);
    } else {
      SequenceSucceeds(plan);
    }
  }

  /** The writes among the first `k` planned deploy calls. */
  lemma {:induction false} DeployCallsWrites(cfg: Config, k: nat)
    requires k <= 5
    ensures Writes(DeployCalls(cfg)[..k]) ==
              if k <= 1 then [] else if k == 2 then [InstallCall(cfg)] else [InstallCall(cfg), InstantiateCall(cfg)]
  {
    if k > 0 {
      DeployCallsWrites(cfg, k - 1);
      WritesSnoc(DeployCalls(cfg), k - 1);
    }
  }

  /** The writes of `InstallAndInstantiateCC` are a prefix of install-then-
      instantiate; the install is issued whenever packaging succeeded, and the
      instantiation whenever the install did. */
  lemma DeployWrites(cfg: Config, s: Session, o: Oracle)
    requires s.handles.sdk && s.handles.admin
    ensures var w := Writes(InstallAndInstantiateCC(cfg, s, o).trace);
            w <= [InstallCall(cfg), InstantiateCall(cfg)]
            && (o.newPackage <==> |w| >= 1)
            && (o.newPackage && o.installCC <==> |w| == 2)
  {
    var r := InstallAndInstantiateCC(cfg, s, o);
    var k := |r.trace|;
    assert r.trace == DeployCalls(cfg)[..k];
    DeployCallsWrites(cfg, k);
    assert o.newPackage <==> k >= 2;
    assert o.newPackage && o.installCC <==> k >= 3;
  }

  /** The error value `Initialize` returns as written. The guard after the
      save returns `errors.WithMessage(err, ...)`, and `errors.WithMessage` of
      github.com/pkg/errors returns nil for a nil error: a save that answers
      with no error but an empty transaction id stops the pipeline and
      reports success. The calls and the session are those of `Initialize`. */
  function InitializeAsWritten(cfg: Config, s: Session, o: Oracle): (r: Run)
    ensures r.trace == Initialize(cfg, s, o).trace && r.after == Initialize(cfg, s, o).after
    ensures r.outcome.Ok? && !r.after.initialized <==>
              !s.initialized && o.newSdk && o.newResMgmtClient && o.newMspClient && o.signingIdentity
              && o.saveChannel == TxResponse([])
  {
    var r := Initialize(cfg, s, o);
    if r.outcome == Err(SaveChannelFailed) && o.saveChannel.TxResponse? then r.(outcome := Ok) else r
  }

  /** An empty transaction id from the save: as written `Initialize` reports
      success, yet it never joined the channel and left the session
      uninitialized; the model reports the save failure. */
  lemma EmptySaveTxIdReportsSuccess(cfg: Config, s: Session, o: Oracle)
    requires !s.initialized && o.newSdk && o.newResMgmtClient && o.newMspClient && o.signingIdentity
    requires o.saveChannel == TxResponse([])
    ensures var w := InitializeAsWritten(cfg, s, o);
            w.outcome == Ok && !w.after.initialized && JoinCall(cfg) !in w.trace
    ensures Initialize(cfg, s, o).outcome == Err(SaveChannelFailed)
  {
  }

  /** The error value `InstallAndInstantiateCC` returns as written: an
      instantiation that answers with no error but an empty transaction id
      stops the pipeline and, through `errors.WithMessage(nil, ...)`, reports
      success. */
  function InstallAndInstantiateCCAsWritten(cfg: Config, s: Session, o: Oracle): (r: Run)
    requires s.handles.sdk && s.handles.admin
    ensures r.trace == InstallAndInstantiateCC(cfg, s, o).trace && r.after == InstallAndInstantiateCC(cfg, s, o).after
    ensures r.outcome.Ok? <==> o.newPackage && o.installCC
                               && (o.instantiateCC == TxResponse([]) || (Committed(o.instantiateCC) && o.newChannelClient && o.newEventClient))
  {
    var r := InstallAndInstantiateCC(cfg, s, o);
    if r.outcome == Err(InstantiateFailed) && o.instantiateCC.TxResponse? then r.(outcome := Ok) else r
  }

  /** An empty transaction id from the instantiation: as written the pipeline
      reports success without having opened the channel or event client. */
  lemma EmptyInstantiateTxIdReportsSuccess(cfg: Config, s: Session, o: Oracle)
    requires s.handles.sdk && s.handles.admin && !s.handles.client
    requires o.newPackage && o.installCC && o.instantiateCC == TxResponse([])
    ensures var w := InstallAndInstantiateCCAsWritten(cfg, s, o);
            w.outcome == Ok && !w.after.handles.client && ChannelClientCall(cfg) !in w.trace
    ensures InstallAndInstantiateCC(cfg, s, o).outcome == Err(InstantiateFailed)
  {
  }
}
