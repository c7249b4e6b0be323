/** Reconcile: the guards, the deferred status report, the hub pass, and the pass over the informer lifecycle. */
module Reconciler {
  import opened Basics
  import opened Alerts
  import opened Histories
  import opened Cluster
  import opened Conditions
  import opened Lifecycle
  import opened Ignores
  import opened Pods
  import opened HubScan
  import opened Checks

  datatype GetAnswer = Found | NotFound | GetFailed

  /** One call of Reconcile: the answers of the API server and the clock. hubPass is what the checks of a full hub pass
      meet, probes holds the events of the reachability checks of an informer pass, and cleanup is what the clean-up of
      either meets; readable tells whether the alert directory can be listed for Healthy. */
  datatype Request = Request(
    kindKnown: bool,
    get: GetAnswer,
    typeKnown: bool,
    suspend: Option<bool>,
    suspendEmailAlert: Option<bool>,
    ignored: IgnoreList,
    email: string,
    relayHost: string,
    hub: Option<bool>,
    configOk: bool,
    clientOk: bool,
    dynamicOk: bool,
    api: Api,
    readings: Readings,
    reportAt: Time,
    errorText: string,
    hubPass: HubPass,
    probes: seq<Event>,
    cleanup: Cleanup,
    readable: bool,
    updateOk: bool)

  datatype Requeue = NoRequeue | RequeueNow | RequeueAfter(delay: Time)

  datatype Outcome = Outcome(requeue: Requeue, failed: bool)

  /** What one status update carries. */
  datatype StatusUpdate = StatusUpdate(conditions: seq<StatusCondition>, healthy: bool)

  /** The object is there, is not suspended, and has a mail address when mail is on. */
  predicate PastGuards(req: Request) {
    && req.kindKnown && req.get == Found && req.typeKnown && req.suspend != Some(true)
    && !(req.suspendEmailAlert == Some(false) && (req.email == "" || req.relayHost == ""))
  }

  predicate GuardFails(req: Request) {
    || !req.kindKnown
    || req.get == GetFailed
    || (req.get == Found && (!req.typeKnown ||
         (req.suspend != Some(true) && req.suspendEmailAlert == Some(false) && (req.email == "" || req.relayHost == ""))))
  }

  predicate BodyFails(req: Request) {
    || !req.configOk || !req.clientOk || !req.dynamicOk
    || (req.hub == Some(true) && Gate(req.api) != Success(false))
  }

  /** The pass starts a factory or rolls to a new one. */
  predicate Starts(l: Life, r: Readings) {
    l.factory.None? || RollDue(l, r)
  }

  const FIRST_SEEN := "First Seen"
  const HUB_DONE := "hub healthcheck functions compiled successfully"
  const INFORMERS_DONE := "dynamic informers compiled successfully"
  const TROUBLE := "Trouble running OcpHealthCheckScan: "

  /** The conditions at the moment of the status update. */
  function FinalConditions(req: Request, cs: seq<StatusCondition>, l: Life): seq<StatusCondition> {
    if ReadyOf(cs).None? then AfterSet(cs, "Unknown", req.reportAt, REASON, FIRST_SEEN)
    else if BodyFails(req) then AfterSet(cs, "False", req.reportAt, REASON, TROUBLE + req.errorText)
    else if req.hub == Some(true) then AfterSet(cs, "True", req.reportAt, REASON, HUB_DONE)
    else if Starts(l, req.readings) then AfterSet(cs, "True", req.reportAt, REASON, INFORMERS_DONE)
    else cs
  }

  /** Whether this call reaches the section under the mutex. */
  predicate Enters(req: Request, cs: seq<StatusCondition>) {
    PastGuards(req) && ReadyOf(cs).Some? && !BodyFails(req) && req.hub != Some(true)
  }

  predicate FullHubPass(req: Request, cs: seq<StatusCondition>) {
    PastGuards(req) && ReadyOf(cs).Some? && !BodyFails(req) && req.hub == Some(true)
  }

  class OcpHealthCheckReconciler {
    var locked: bool
    var factory: Option<nat>
    var stopChan: Option<nat>
    var mcpInformer: Option<nat>
    var podInformer: Option<nat>
    var nodeInformer: Option<nat>
    var policyInformer: Option<nat>
    var coInformer: Option<nat>
    var nncpInformer: Option<nat>
    var catalogSourceInformer: Option<nat>
    var csvInformer: Option<nat>
    var tunedInformer: Option<nat>
    var tridentInformer: Option<nat>
    var informerTimer: Option<Time>
    var podCleaner: Option<Time>

    // what has happened so far
    var factories: nat
    var channels: nat
    ghost var closes: seq<nat>
    ghost var launches: seq<Launched>
    ghost var firstStart: Option<Time>
    ghost var rolls: nat
    ghost var cleanups: nat
    ghost var updates: seq<StatusUpdate>

    ghost function Snapshot(): Life
      reads `factory, `stopChan, `mcpInformer, `podInformer, `nodeInformer, `policyInformer, `coInformer,
            `nncpInformer, `catalogSourceInformer, `csvInformer, `tunedInformer, `tridentInformer,
            `informerTimer, `podCleaner, `closes, `factories, `launches, `firstStart, `rolls, `cleanups
    {
      Life(factory, stopChan, CurrentInformers(), informerTimer, podCleaner,
           closes, factories, launches, firstStart, rolls, cleanups, false)
    }

    ghost function CurrentInformers(): Informers
      reads `mcpInformer, `podInformer, `nodeInformer, `policyInformer, `coInformer,
            `nncpInformer, `catalogSourceInformer, `csvInformer, `tunedInformer, `tridentInformer
    {
      Informers(mcpInformer, podInformer, nodeInformer, policyInformer, coInformer,
                nncpInformer, catalogSourceInformer, csvInformer, tunedInformer, tridentInformer)
    }

    /** Between calls the mutex is free and there is one generation or none. */
    ghost predicate Valid()
      reads this
    {
      !locked && channels == |closes| && OneGeneration(Snapshot())
    }

    constructor ()
      ensures Valid() && Snapshot() == BOOT && updates == []
    {
      locked, factory, stopChan := false, None, None;
      mcpInformer, podInformer, nodeInformer, policyInformer, coInformer := None, None, None, None, None;
      nncpInformer, catalogSourceInformer, csvInformer, tunedInformer, tridentInformer := None, None, None, None, None;
      informerTimer, podCleaner := None, None;
      factories, channels, closes, launches, firstStart, rolls, cleanups, updates := 0, 0, [], [], None, 0, 0, [];
    }

    method CloseStopChan()
      requires stopChan.Some? && stopChan.value < |closes| && closes[stopChan.value] == 0
      modifies `closes
      ensures closes == old(closes)[stopChan.value := 1]
    {
      closes := closes[stopChan.value := 1];
    }

    /** A new channel and a new factory. */
    method MakeChannelAndFactory()
      requires channels == |closes|
      modifies `stopChan, `channels, `closes, `factory, `factories
      ensures stopChan == Some(old(channels)) && closes == old(closes) + [0] && channels == old(channels) + 1
      ensures factory == Some(old(factories)) && factories == old(factories) + 1
    {
      stopChan := Some(channels);
      channels := channels + 1;
      closes := closes + [0];
      factory := Some(factories);
      factories := factories + 1;
    }

    /** The ten informers of the current factory. */
    method MakeInformers()
      requires factory.Some?
      modifies `mcpInformer, `podInformer, `nodeInformer, `policyInformer, `coInformer, `nncpInformer,
               `catalogSourceInformer, `csvInformer, `tunedInformer, `tridentInformer
      ensures CurrentInformers() == AllFrom(factory)
    {
      mcpInformer := factory;
      podInformer := factory;
      nodeInformer := factory;
      policyInformer := factory;
      coInformer := factory;
      nncpInformer := factory;
      catalogSourceInformer := factory;
      csvInformer := factory;
      tunedInformer := factory;
      tridentInformer := factory;
    }

    /** Nine of the ten informers become nil. */
    method DropInformers()
      modifies `mcpInformer, `podInformer, `nodeInformer, `policyInformer, `coInformer, `nncpInformer,
               `catalogSourceInformer, `csvInformer, `tunedInformer
      ensures CurrentInformers() == AllFrom(None).(trident := tridentInformer)
    {
      podInformer := None;
      nncpInformer := None;
      nodeInformer := None;
      mcpInformer := None;
      policyInformer := None;
      catalogSourceInformer := None;
      csvInformer := None;
      coInformer := None;
      tunedInformer := None;
    }

    /** A new generation. */
    method BuildGeneration()
      requires locked && channels == |closes|
      modifies this
      ensures Snapshot() == BuildInformers(MakeFactory(MakeChannel(old(Snapshot()))))
      ensures channels == |closes| && locked == old(locked) && updates == old(updates)
    {
      MakeChannelAndFactory();
      MakeInformers();
    }

    /** What a roll does before it builds the new generation. */
    method TearDown()
      requires stopChan.Some? && stopChan.value < |closes| && closes[stopChan.value] == 0
      modifies `closes, `stopChan, `factory, `mcpInformer, `podInformer, `nodeInformer, `policyInformer, `coInformer,
               `nncpInformer, `catalogSourceInformer, `csvInformer, `tunedInformer
      ensures closes == old(closes)[old(stopChan).value := 1]
      ensures CurrentInformers() == AllFrom(None).(trident := tridentInformer)
      ensures stopChan == None && factory == None
    {
      CloseStopChan();
      DropInformers();
      stopChan := None;
      factory := None;
    }

    method CloseGeneration()
      requires locked && channels == |closes| && OneGeneration(Snapshot()) && factory.Some?
      modifies this
      ensures Snapshot() == ClearFields(CloseOld(old(Snapshot())))
      ensures channels == |closes| && locked == old(locked) && updates == old(updates)
    {
      TearDown();
    }

    /** The informer timer, and the start of the new factory. */
    method Relaunch(now: Time)
      requires locked && factory.Some? && stopChan.Some?
      modifies `informerTimer, `rolls, `launches
      ensures Snapshot() == Launch(SetTimers(old(Snapshot()), true, now))
    {
      informerTimer := Some(now);
      rolls := rolls + 1;
      launches := launches + [Launched(factory.value, stopChan.value)];
    }

    /** Replaces the generation by a new one. */
    method Roll(now: Time)
      requires locked && channels == |closes| && OneGeneration(Snapshot()) && factory.Some?
      modifies this
      ensures Snapshot() == Started(old(Snapshot()), true, now)
      ensures channels == |closes| && locked == old(locked) && updates == old(updates)
    {
      CloseGeneration();
      BuildGeneration();
      assert Snapshot().factory.Some? && Snapshot().stopChan.Some?;
      Relaunch(now);
    }

    /** Makes the first generation. */
    method FirstStart(now: Time)
      requires locked && channels == |closes| && OneGeneration(Snapshot()) && factory.None?
      modifies this
      ensures Snapshot() == Started(old(Snapshot()), false, now)
      ensures channels == |closes| && locked == old(locked) && updates == old(updates)
    {
      BuildGeneration();
      informerTimer := Some(now);
      podCleaner := Some(now);
      firstStart := if firstStart.None? then Some(now) else firstStart;
      launches := launches + [Launched(factory.value, stopChan.value)];
    }

    /** Sets Healthy from a listing of the alert directory, if it can be read. */
    method ComputeHealthy(ledger: Ledger, status: Status, readable: bool)
      modifies status
      ensures status.conditions == old(status.conditions)
      ensures status.healthy == if readable then HealthyListing(ledger.Now().world) else old(status.healthy)
    {
      if readable {
        var names := ledger.ReadDir();
        if |names| > 0 {
          assert names[0] in names;
          assert Path(AlertDir, names[0]) in ledger.files;
          status.healthy := false;
        } else {
          status.healthy := true;
        }
      }
    }

    /** A pass that rolls to a new generation and, when it is due, cleans up. */
    method RollPass(req: Request, status: Status, ledger: Ledger)
      requires locked && channels == |closes| && OneGeneration(Snapshot()) && RollDue(Snapshot(), req.readings)
      requires TerminationsRecorded(req.cleanup)
      modifies this, status, ledger
      ensures Snapshot() == Pass(old(Snapshot()), req.readings)
      ensures channels == |closes| && locked == old(locked) && updates == old(updates)
      ensures status.conditions == AfterSet(old(status.conditions), "True", req.reportAt, REASON, INFORMERS_DONE)
      ensures status.healthy == if req.readable then HealthyListing(ledger.Now().world) else old(status.healthy)
      ensures PassChecked(ledger.EnvOf(req.suspendEmailAlert), req, old(Snapshot()), old(ledger.Now()), ledger.Now())
    {
      Roll(req.readings.start);
      status.SetReadyCondition("True", req.reportAt, REASON, INFORMERS_DONE);
      RunEvents(ledger, req.probes, SpecOf(req));
      CleanIfDue(req, ledger);
      ComputeHealthy(ledger, status, req.readable);
    }

    /** The hourly part of a roll. */
    method CleanIfDue(req: Request, ledger: Ledger)
      requires locked && podCleaner.Some? && TerminationsRecorded(req.cleanup)
      modifies `podCleaner, `cleanups, ledger
      ensures Snapshot() ==
              if CleanupDue(old(Snapshot()), req.readings) then SetCleaner(old(Snapshot()), req.readings.clean)
              else old(Snapshot())
      ensures if CleanupDue(old(Snapshot()), req.readings) then Cleaned(SpecOf(req), req.cleanup, old(ledger.Now()), ledger.Now())
              else ledger.Now() == old(ledger.Now())
    {
      if podCleaner.value < req.readings.cleanup - 1 * HOUR {
        RunCleanup(ledger, req.cleanup, SpecOf(req));
        podCleaner := Some(req.readings.clean);
        cleanups := cleanups + 1;
      }
    }

    /** The pass that makes the first generation. */
    method StartPass(req: Request, status: Status, ledger: Ledger)
      requires locked && channels == |closes| && OneGeneration(Snapshot()) && factory.None?
      modifies this, status, ledger
      ensures Snapshot() == Pass(old(Snapshot()), req.readings)
      ensures channels == |closes| && locked == old(locked) && updates == old(updates)
      ensures status.conditions == AfterSet(old(status.conditions), "True", req.reportAt, REASON, INFORMERS_DONE)
      ensures status.healthy == old(status.healthy)
      ensures ledger.Now() == Process(ledger.EnvOf(req.suspendEmailAlert), old(ledger.Now()), req.probes)
    {
      FirstStart(req.readings.start);
      RunEvents(ledger, req.probes, SpecOf(req));
      status.SetReadyCondition("True", req.reportAt, REASON, INFORMERS_DONE);
    }

    /** The section under the mutex. */
    method InformerPass(req: Request, status: Status, ledger: Ledger)
      requires Valid() && TerminationsRecorded(req.cleanup)
      modifies this, status, ledger
      ensures Valid() && updates == old(updates)
      ensures Snapshot() == Pass(old(Snapshot()), req.readings)
      ensures status.conditions ==
              if Starts(old(Snapshot()), req.readings)
              then AfterSet(old(status.conditions), "True", req.reportAt, REASON, INFORMERS_DONE)
              else old(status.conditions)
      ensures status.healthy ==
              if RollDue(old(Snapshot()), req.readings) && req.readable then HealthyListing(ledger.Now().world)
              else old(status.healthy)
      ensures PassChecked(ledger.EnvOf(req.suspendEmailAlert), req, old(Snapshot()), old(ledger.Now()), ledger.Now())
    {
      PassKeepsGeneration(Snapshot(), req.readings);
      locked := true;
      var pastTime := req.readings.past - 3 * MINUTE;
      if factory.Some? {
        if informerTimer.Some? && informerTimer.value < pastTime {
          RollPass(req, status, ledger);
        }
      } else {
        StartPass(req, status, ledger);
      }
      locked := false;
    }

    /** The returns before the status update is deferred. */
    method Guards(req: Request) returns (early: Option<Outcome>)
      ensures early.None? <==> PastGuards(req)
      ensures early.Some? ==> early.value == Outcome(NoRequeue, GuardFails(req))
    {
      if !req.kindKnown {
        return Some(Outcome(NoRequeue, true));
      }
      if req.get != Found {
        return Some(Outcome(NoRequeue, req.get == GetFailed));
      }
      if !req.typeKnown {
        return Some(Outcome(NoRequeue, true));
      }
      if req.suspend == Some(true) {
        return Some(Outcome(NoRequeue, false));
      }
      if req.suspendEmailAlert == Some(false) {
        if req.email == "" || req.relayHost == "" {
          return Some(Outcome(NoRequeue, true));
        }
      }
      return None;
    }

    /** Runs the body, reports a failure, and attempts one status update. */
    method Reconcile(req: Request, status: Status, ledger: Ledger) returns (out: Outcome, ghost tr: Trace)
      requires Valid() && CallReadable(req)
      modifies this, status, ledger
      ensures Valid()
      ensures !PastGuards(req) ==>
        && updates == old(updates) && status.conditions == old(status.conditions) && status.healthy == old(status.healthy)
        && ledger.Now() == old(ledger.Now()) && out == Outcome(NoRequeue, GuardFails(req))
      ensures PastGuards(req) ==>
        && updates == old(updates) + [StatusUpdate(status.conditions, status.healthy)]
        && status.conditions == FinalConditions(req, old(status.conditions), old(Snapshot()))
        && out == (if req.updateOk then Answer(req, old(status.conditions)) else Outcome(NoRequeue, true))
      ensures PastGuards(req) && !req.updateOk ==> out == Outcome(NoRequeue, true)
      ensures PastGuards(req) && req.updateOk && ReadyOf(old(status.conditions)).None? ==> out == Outcome(NoRequeue, false)
      ensures PastGuards(req) && req.updateOk && ReadyOf(old(status.conditions)).Some? ==>
        && (!out.failed ==> out.requeue == RequeueNow)
        && (out == Outcome(RequeueAfter(1_800_000_000_000), true) <==>
             req.hub == Some(true) && req.configOk && req.clientOk && req.dynamicOk && Gate(req.api) != Success(false))
        && (out == Outcome(NoRequeue, true) <==> !req.configOk || !req.clientOk || !req.dynamicOk)
        && (out.failed ==> Reported(old(status.conditions), status.conditions, "False"))
        && (!out.failed ==> Reported(old(status.conditions), status.conditions, "True") || status.conditions == old(status.conditions))
      ensures Called(ledger.faults, old(Situation(status.conditions, status.healthy, Snapshot(), ledger.Now())), req, tr,
                     Situation(status.conditions, status.healthy, Snapshot(), ledger.Now()))
    {
      tr := Trace([], [], []);
      var early := Guards(req);
      if early.Some? {
        return early.value, tr;
      }
      out, tr := Body(req, status, ledger);
      // deferred
      if out.failed {
        status.SetReadyCondition("False", req.reportAt, REASON, TROUBLE + req.errorText);
      }
      updates := updates + [StatusUpdate(status.conditions, status.healthy)];
      if !req.updateOk {
        out := Outcome(NoRequeue, true);
      }
    }

    /** The checks of a full hub pass, Healthy and the report. */
    method HubPassOf(req: Request, status: Status, ledger: Ledger) returns (ghost tr: Trace)
      requires HubReadable(SpecOf(req), req.hubPass) && TerminationsRecorded(req.cleanup)
      modifies status, ledger
      ensures status.conditions == AfterSet(old(status.conditions), "True", req.reportAt, REASON, HUB_DONE)
      ensures status.healthy == if req.readable then HealthyListing(ledger.Now().world) else old(status.healthy)
      ensures HubChecked(ledger.EnvOf(req.suspendEmailAlert), SpecOf(req), req.hubPass, req.cleanup, tr,
                         old(ledger.Now()), ledger.Now())
    {
      tr := RunHubChecks(ledger, SpecOf(req), req.hubPass, req.cleanup);
      ComputeHealthy(ledger, status, req.readable);
      status.SetReadyCondition("True", req.reportAt, REASON, HUB_DONE);
    }

    /** Reconcile after its guards and before its deferred status update. */
    method Body(req: Request, status: Status, ledger: Ledger) returns (out: Outcome, ghost tr: Trace)
      requires Valid() && PastGuards(req) && CallReadable(req)
      modifies this, status, ledger
      ensures Valid() && updates == old(updates)
      ensures out == Answer(req, old(status.conditions))
      ensures status.conditions ==
              if out.failed then old(status.conditions)
              else FinalConditions(req, old(status.conditions), old(Snapshot()))
      ensures Snapshot() ==
              if Enters(req, old(status.conditions)) then Pass(old(Snapshot()), req.readings) else old(Snapshot())
      ensures CallChecked(ledger.EnvOf(req.suspendEmailAlert), req, tr, old(status.conditions), old(Snapshot()),
                          old(ledger.Now()), ledger.Now())
      ensures status.healthy ==
              if SetsHealthy(req, old(status.conditions), old(Snapshot())) then HealthyListing(ledger.Now().world)
              else old(status.healthy)
    {
      tr := Trace([], [], []);
      var ready := status.GetReadyCondition();
      if ready.None? {
        status.SetReadyCondition("Unknown", req.reportAt, REASON, FIRST_SEEN);
        return Outcome(NoRequeue, false), tr;
      }
      if !req.configOk {
        return Outcome(NoRequeue, true), tr;
      }
      if !req.clientOk {
        return Outcome(NoRequeue, true), tr;
      }
      if !req.dynamicOk {
        return Outcome(NoRequeue, true), tr;
      }
      if req.hub == Some(true) {
        var mcp := CheckMCPINProgress(req.api);
        if mcp.Failure? {
          return Outcome(RequeueAfter(30 * MINUTE), true), tr;
        } else if mcp.value {
          return Outcome(RequeueAfter(30 * MINUTE), true), tr;
        }
        tr := HubPassOf(req, status, ledger);
        return Outcome(RequeueNow, false), tr;
      } else {
        InformerPass(req, status, ledger);
        return Outcome(RequeueNow, false), tr;
      }
    }
  }

  /** The first Ready entry now has this status, and nothing else has changed but its time, reason and message. */
  ghost predicate Reported(before: seq<StatusCondition>, after: seq<StatusCondition>, status: string) {
    exists time, reason, message :: after == AfterSet(before, status, time, reason, message)
  }

  /** All that a call of Reconcile can change. */
  datatype Situation = Situation(conditions: seq<StatusCondition>, healthy: bool, life: Life, session: Session)

  function SpecOf(req: Request): Spec {
    Spec(req.suspendEmailAlert, req.ignored)
  }

  /** What a call reads without a test is there. */
  ghost predicate CallReadable(req: Request) {
    && (req.hub == Some(true) ==> SelectorsPresent(req.api) && HubReadable(SpecOf(req), req.hubPass))
    && TerminationsRecorded(req.cleanup)
  }

  /** The checks of a pass under the mutex take s to s': the reachability checks when it starts a factory, and after them
      the clean-up when it rolls and the clean-up is due. */
  ghost predicate PassChecked(env: Env, req: Request, l: Life, s: Session, s': Session) {
    if !Starts(l, req.readings) then s' == s
    else if l.factory.Some? && CleanupDue(l, req.readings)
    then Cleaned(SpecOf(req), req.cleanup, Process(env, s, req.probes), s')
    else s' == Process(env, s, req.probes)
  }

  /** The checks of a call take s to s': those of a full hub pass, those of a pass under the mutex, or none. */
  ghost predicate CallChecked(env: Env, req: Request, tr: Trace, cs: seq<StatusCondition>, l: Life, s: Session, s': Session) {
    if Enters(req, cs) then PassChecked(env, req, l, s, s')
    else if FullHubPass(req, cs) then HubChecked(env, SpecOf(req), req.hubPass, req.cleanup, tr, s, s')
    else s' == s
  }

  /** The call computes Healthy: a full hub pass or a roll that can list the alert directory. */
  predicate SetsHealthy(req: Request, cs: seq<StatusCondition>, l: Life) {
    req.readable && (FullHubPass(req, cs) || (Enters(req, cs) && RollDue(l, req.readings)))
  }

  /** One call of Reconcile takes the object that it fetches, the lifecycle and the ledger from s to s'. */
  ghost predicate Called(faults: nat -> Faults, s: Situation, req: Request, tr: Trace, s': Situation) {
    && s'.conditions == (if PastGuards(req) then FinalConditions(req, s.conditions, s.life) else s.conditions)
    && s'.healthy == (if SetsHealthy(req, s.conditions, s.life) then HealthyListing(s'.session.world) else s.healthy)
    && s'.life == (if Enters(req, s.conditions) then Pass(s.life, req.readings) else s.life)
    && CallChecked(Env(req.suspendEmailAlert == Some(false), faults), req, tr, s.conditions, s.life, s.session, s'.session)
  }

  /** What Reconcile returns when the status update succeeds. */
  function Answer(req: Request, cs: seq<StatusCondition>): Outcome {
    if ReadyOf(cs).None? then Outcome(NoRequeue, false)
    else if !req.configOk || !req.clientOk || !req.dynamicOk then Outcome(NoRequeue, true)
    else if req.hub == Some(true) && Gate(req.api) != Success(false) then Outcome(RequeueAfter(30 * MINUTE), true)
    else Outcome(RequeueNow, false)
  }

  /** Exactly which calls return before the status update, and with an error: the object is of an unknown kind or type, or
      cannot be fetched, or mails are on without an address or a relay; a missing or suspended object is no error. */
  lemma GuardsExactly(req: Request)
    ensures PastGuards(req) <==>
            && req.kindKnown && req.get == Found && req.typeKnown && (req.suspend.Some? ==> !req.suspend.value)
            && (req.suspendEmailAlert == Some(false) ==> req.email != "" && req.relayHost != "")
    ensures GuardFails(req) <==>
            && !PastGuards(req)
            && !(req.kindKnown && req.get == NotFound)
            && !(req.kindKnown && req.get == Found && req.typeKnown && req.suspend == Some(true))
  {
  }

  /** The call cannot be carried out: no configuration or client, or on a hub an update in progress or an unknown one. */
  predicate CannotRun(req: Request) {
    || !req.configOk || !req.clientOk || !req.dynamicOk
    || (req.hub == Some(true) && Gate(req.api) != Success(false))
  }

  /** The call finds no factory, or one whose informer timer is more than three minutes old. */
  predicate Renews(req: Request, l: Life) {
    l.factory.None? || (l.informerTimer.Some? && l.informerTimer.value < req.readings.past - 180_000_000_000)
  }

  /** The Ready condition after a report at this moment. */
  predicate ReadyBecomes(before: Option<StatusCondition>, after: Option<StatusCondition>, status: string, message: string, now: Time) {
    && after.Some? && after.value.status == status && after.value.message == message
    && after.value.reason == "OcpHealthCheckReconciler"
    && after.value.since == (if before.Some? && before.value.status == status then before.value.since else Some(now))
  }

  /** Exit contract: what the status update of a call past the guards says about Ready, and that it says nothing else. */
  lemma ExitContract(req: Request, cs: seq<StatusCondition>, l: Life)
    requires PastGuards(req)
    ensures
      var final := FinalConditions(req, cs, l);
      var before, after := ReadyOf(cs), ReadyOf(final);
      && (forall j :: 0 <= j < |cs| && j != ReadyIndex(cs) ==> j < |final| && final[j] == cs[j])
      && if before.None? then ReadyBecomes(before, after, "Unknown", "First Seen", req.reportAt)
         else if CannotRun(req)
         then ReadyBecomes(before, after, "False", "Trouble running OcpHealthCheckScan: " + req.errorText, req.reportAt)
         else if req.hub == Some(true)
         then ReadyBecomes(before, after, "True", "hub healthcheck functions compiled successfully", req.reportAt)
         else if Renews(req, l)
         then ReadyBecomes(before, after, "True", "dynamic informers compiled successfully", req.reportAt)
         else final == cs
  {
    if ReadyOf(cs).None? {
      ReportSays(cs, "Unknown", req.reportAt, FIRST_SEEN);
    } else if CannotRun(req) {
      ReportSays(cs, "False", req.reportAt, TROUBLE + req.errorText);
    } else if req.hub == Some(true) {
      ReportSays(cs, "True", req.reportAt, HUB_DONE);
    } else if Renews(req, l) {
      ReportSays(cs, "True", req.reportAt, INFORMERS_DONE);
    }
  }

  /** What one report does to the conditions. */
  lemma ReportSays(cs: seq<StatusCondition>, status: string, now: Time, message: string)
    requires status != ""
    ensures
      var after := AfterSet(cs, status, now, REASON, message);
      && ReadyBecomes(ReadyOf(cs), ReadyOf(after), status, message, now)
      && forall j :: 0 <= j < |cs| && j != ReadyIndex(cs) ==> j < |after| && after[j] == cs[j]
  {
    var after := AfterSet(cs, status, now, REASON, message);
    SetTouchesOnlyReady(cs, status, now, REASON, message);
    ReadyStaysPut(cs, after);
    var i := ReadyIndex(cs);
    assert after[i].kind == READY;
    assert ReadyIndex(after) == i;
  }

  /** Exactly what a call past the guards whose status update succeeds returns: nothing to come back for when it has only
      seen the object for the first time, an error when it cannot be carried out, after half an hour on a hub whose
      gate is shut, and another call at once when it has run. */
  lemma AnswerExactly(req: Request, cs: seq<StatusCondition>)
    ensures Answer(req, cs) ==
            if forall j :: 0 <= j < |cs| ==> cs[j].kind != "Ready" then Outcome(NoRequeue, false)
            else if !(req.configOk && req.clientOk && req.dynamicOk) then Outcome(NoRequeue, true)
            else if CannotRun(req) then Outcome(RequeueAfter(1_800_000_000_000), true)
            else Outcome(RequeueNow, false)
  {
    assert ReadyOf(cs).None? <==> forall j :: 0 <= j < |cs| ==> cs[j].kind != "Ready";
  }

  /** When a call computes Healthy, and from what: on a hub that it can scan, or when it renews a factory that was there; and
      then Healthy says that no file is left in the alert directory after its checks. */
  lemma HealthyExactly(faults: nat -> Faults, s: Situation, req: Request, tr: Trace, s': Situation)
    requires Called(faults, s, req, tr, s')
    ensures
      var runs := PastGuards(req) && ReadyOf(s.conditions).Some? && !CannotRun(req);
      var computes := runs && req.readable && (req.hub == Some(true) || (s.life.factory.Some? && Renews(req, s.life)));
      s'.healthy <==> if computes then forall path: Path :: path.dir == AlertDir ==> path !in s'.session.world.files else s.healthy
  {
  }

  lemma ReadyStaysPut(cs: seq<StatusCondition>, after: seq<StatusCondition>)
    requires |after| >= |cs|
    requires forall j :: 0 <= j < |cs| ==> after[j].kind == cs[j].kind
    ensures ReadyIndex(cs) < |cs| ==> ReadyIndex(after) == ReadyIndex(cs)
  {
  }
}
