/** Whole runs of the operator: what its handlers do and what its Reconcile calls leave in the object, one after another. */
module Stories {
  import opened Basics
  import opened Alerts
  import opened Histories
  import opened Lifecycle
  import opened HubScan
  import opened Balance
  import opened Checks
  import opened Reconciler

  /** A handler sends its events, or Reconcile is called; tr is the run of the goroutines of its pod scan. */
  datatype Happening = Notified(suspendEmailAlert: Option<bool>, events: seq<Event>) | Reconciled(req: Request, tr: Trace)

  /** The status of the object is stored. */
  predicate Stores(req: Request) {
    PastGuards(req) && req.updateOk
  }

  /** What the next call finds: the lifecycle and the ledger as the last one left them, but the object as it was when the
      status update failed or was not attempted. */
  function Stored(req: Request, before: Situation, after: Situation): Situation {
    if Stores(req) then after else after.(conditions := before.conditions, healthy := before.healthy)
  }

  ghost predicate Happens(faults: nat -> Faults, s: Situation, h: Happening, s': Situation) {
    match h
    case Notified(suspendEmailAlert, events) =>
      s' == s.(session := Process(Env(suspendEmailAlert == Some(false), faults), s.session, events))
    case Reconciled(req, tr) => exists after :: Called(faults, s, req, tr, after) && s' == Stored(req, s, after)
  }

  /** The situations before, between and after these happenings. */
  ghost predicate Story(faults: nat -> Faults, states: seq<Situation>, hs: seq<Happening>) {
    && |states| == |hs| + 1
    && forall k :: 0 <= k < |hs| ==> Happens(faults, states[k], hs[k], states[k + 1])
  }

  /** Nothing fails in the checks of a call, and no two goroutines of its pod scan alert, or recover, one file. */
  ghost predicate Safe(h: Happening) {
    h.Reconciled? ==> ScanIsSafe(SpecOf(h.req), h.req.hubPass, h.tr) && CleanupNeverFails(h.req.cleanup)
  }

  lemma PassKeepsAllEven(env: Env, req: Request, l: Life, s: Session, s': Session)
    requires PassChecked(env, req, l, s, s') && NeverFails(env.faults) && CleanupNeverFails(req.cleanup)
    requires AllEven(s.world)
    ensures AllEven(s'.world)
  {
    ProcessKeepsAllEven(env, s, req.probes);
    if Starts(l, req.readings) && l.factory.Some? && CleanupDue(l, req.readings) {
      CleanedKeepsAllEven(SpecOf(req), req.cleanup, Process(env, s, req.probes), s');
    }
  }

  lemma CallKeepsAllEven(faults: nat -> Faults, s: Situation, req: Request, tr: Trace, s': Situation)
    requires Called(faults, s, req, tr, s') && NeverFails(faults) && Safe(Reconciled(req, tr)) && AllEven(s.session.world)
    ensures AllEven(s'.session.world)
  {
    var env := Env(req.suspendEmailAlert == Some(false), faults);
    if Enters(req, s.conditions) {
      PassKeepsAllEven(env, req, s.life, s.session, s'.session);
    } else if FullHubPass(req, s.conditions) {
      HubPassKeepsAllEven(env, SpecOf(req), req.hubPass, req.cleanup, tr, s.session, s'.session);
    }
  }

  lemma HappeningKeepsAllEven(faults: nat -> Faults, s: Situation, h: Happening, s': Situation)
    requires Happens(faults, s, h, s') && NeverFails(faults) && Safe(h) && AllEven(s.session.world)
    ensures AllEven(s'.session.world)
  {
    match h
    case Notified(suspendEmailAlert, events) =>
      ProcessKeepsAllEven(Env(suspendEmailAlert == Some(false), faults), s.session, events);
    case Reconciled(req, tr) =>
      var after :| Called(faults, s, req, tr, after) && s' == Stored(req, s, after);
      CallKeepsAllEven(faults, s, req, tr, after);
  }

  /** Alerts and resolved mails stay in balance with the files through every story in which nothing fails. */
  lemma {:induction false} StoryKeepsAllEven(faults: nat -> Faults, states: seq<Situation>, hs: seq<Happening>, k: nat)
    requires Story(faults, states, hs) && NeverFails(faults) && k <= |hs|
    requires (forall h :: h in hs ==> Safe(h)) && AllEven(states[0].session.world)
    ensures AllEven(states[k].session.world)
  {
    if k > 0 {
      StoryKeepsAllEven(faults, states, hs, k - 1);
      HappeningKeepsAllEven(faults, states[k - 1], hs[k - 1], states[k]);
    }
  }

  /** The call computes Healthy and stores it. */
  predicate Publishes(s: Situation, h: Happening) {
    h.Reconciled? && SetsHealthy(h.req, s.conditions, s.life) && Stores(h.req)
  }

  /** How many of the first k happenings it takes until Healthy is computed and stored for the last time; 0 if never. */
  function LastPublished(states: seq<Situation>, hs: seq<Happening>, k: nat): (n: nat)
    requires |states| == |hs| + 1 && k <= |hs|
    ensures n <= k
  {
    if k == 0 then 0 else if Publishes(states[k - 1], hs[k - 1]) then k else LastPublished(states, hs, k - 1)
  }

  /** Healthy tells the mail history: in every story of handler runs and Reconcile calls without failing file operations
      and mails, from an alert directory in balance, in which no two goroutines of a pod scan alert, or recover, one file,
      the stored Healthy is what it was at first until a call computes and stores it, and from then on it says whether
      alerts and resolved mails balanced when it was last computed and stored. */
  lemma {:induction false} HealthyIsLastBalance(faults: nat -> Faults, states: seq<Situation>, hs: seq<Happening>, k: nat)
    requires Story(faults, states, hs) && NeverFails(faults) && k <= |hs|
    requires (forall h :: h in hs ==> Safe(h)) && AllEven(states[0].session.world)
    ensures
      var n := LastPublished(states, hs, k);
      states[k].healthy <==> if n == 0 then states[0].healthy else MailBalance(states[n].session.world)
  {
    if k > 0 {
      var s, h, s' := states[k - 1], hs[k - 1], states[k];
      if Publishes(s, h) {
        StoryKeepsAllEven(faults, states, hs, k);
        EvenIsHonest(s'.session.world);
      } else {
        HealthyIsLastBalance(faults, states, hs, k - 1);
      }
    }
  }

  /** A failed status update loses what the call has computed: the object keeps its old conditions and its old Healthy,
      while the lifecycle and the ledger have gone on. */
  lemma FailedUpdateForgets(faults: nat -> Faults, s: Situation, req: Request, tr: Trace, s': Situation)
    requires Happens(faults, s, Reconciled(req, tr), s') && !req.updateOk
    ensures s'.conditions == s.conditions && s'.healthy == s.healthy
    ensures s'.life == if Enters(req, s.conditions) then Pass(s.life, req.readings) else s.life
  {
  }
}
