/** The health checks of one pass: the hub pass with its scans in order, and the clean-up. */
module Checks {
  import opened Basics
  import opened Alerts
  import opened Histories
  import opened Cluster
  import opened Ignores
  import opened Goroutines
  import opened Pods
  import opened PodFiles
  import opened HubPods
  import opened HubScan
  import opened Nodes
  import opened Policies
  import opened Balance
  import opened ScanOrder

  /** What a clean-up meets. */
  datatype Cleanup = Cleanup(
    podList: Result<seq<Pod>>,
    readable: bool,
    parse: Parser,
    clock: CleanupClock,
    faults: string -> nat -> Faults)

  /** What the checks of a hub pass meet. before, between and after are the events of the checks that run before the pod
      scan, between the policy scan and the clean-up, and after the clean-up. */
  datatype HubPass = HubPass(
    before: seq<Event>,
    view: View,
    podLists: Result<seq<Result<seq<Pod>>>>,
    readable: nat -> Readable,
    podFaults: nat -> nat -> Faults,
    nodes: Result<seq<Node>>,
    policies: Result<seq<Seen>>,
    between: seq<Event>,
    after: seq<Event>)

  /** Every running or completed container that has restarted has a last termination. */
  ghost predicate TerminationsRecorded(c: Cleanup) {
    forall pod, cs :: pod in PodsOf(c.podList) && cs in pod.statuses ==> TerminationPresent(cs)
  }

  /** What the scans of a hub pass read is there. */
  ghost predicate HubReadable(spec: Spec, h: HubPass) {
    && SelectorsPresent(h.view.api)
    && (Gate(h.view.api) == Success(false) && h.podLists.Success? ==>
         forall i :: 0 <= i < |h.podLists.value| ==>
           NamesReadable(h.view, spec, h.readable(i), PodsOf(h.podLists.value[i])))
    && (h.policies.Success? ==> forall i :: 0 <= i < |h.policies.value| && i <= Handled(spec, h.policies.value) ==>
         && EntriesHaveNames(spec.ignored, "policy", h.policies.value[i].policy.namespace)
         && HistoriesReadable(spec, h.policies.value[i].policy))
  }

  /** The checks that send these events. */
  method RunEvents(ledger: Ledger, events: seq<Event>, spec: Spec)
    modifies ledger
    ensures ledger.Now() == Process(ledger.EnvOf(spec.suspendEmailAlert), old(ledger.Now()), events)
  {
    ghost var env, start := ledger.EnvOf(spec.suspendEmailAlert), ledger.Now();
    for i := 0 to |events|
      invariant ledger.Now() == Process(env, start, events[..i])
    {
      ProcessStep(env, start, events[..i], events[i]);
      assert events[..i + 1] == events[..i] + [events[i]];
      ledger.SendEmail(events[i], spec.suspendEmailAlert);
    }
    assert events[..|events|] == events;
  }

  /** A clean-up takes s to s'. */
  ghost predicate Cleaned(spec: Spec, c: Cleanup, s: Session, s': Session) {
    if !c.readable || spec.suspendEmailAlert != Some(false) then s' == s
    else s'.calls == s.calls && exists listing ::
      Lists(listing, s.world.files) && SameByPath(s'.world, RunCalls(s.world, CleanupCalls(c, listing)))
  }

  function CleanupCalls(c: Cleanup, listing: seq<string>): seq<Call> {
    Joined(CleanupPrograms(c.parse, c.clock, listing, PodsOf(c.podList), c.faults))
  }

  method RunCleanup(ledger: Ledger, c: Cleanup, spec: Spec)
    requires TerminationsRecorded(c)
    modifies ledger
    ensures Cleaned(spec, c, old(ledger.Now()), ledger.Now())
  {
    CleanUpRunningPods(ledger, c.podList, c.readable, c.parse, c.clock, c.faults, spec);
  }

  function ScanOf(spec: Spec, h: HubPass): Scan
    requires h.podLists.Success?
  {
    Scan(h.view, spec, h.podLists.value, h.readable, h.podFaults)
  }

  /** The pod scan of a hub pass takes s to s', its goroutines by the run tr. */
  ghost predicate PodsScanned(spec: Spec, h: HubPass, tr: Trace, s: Session, s': Session) {
    if Active(h.view, spec, h.podLists) then s'.calls == s.calls && CompleteScan(s.world, ScanOf(spec, h), tr, s'.world)
    else s' == s
  }

  /** The nodes that the node scan reaches, and the policies that the policy scan handles. */
  function ReachedNodes(h: HubPass): seq<Node> {
    if h.nodes.Failure? then [] else h.nodes.value[..Reached(h.nodes.value)]
  }

  function HandledPolicies(spec: Spec, h: HubPass): seq<Seen> {
    if h.policies.Failure? then [] else h.policies.value[..Handled(spec, h.policies.value)]
  }

  function AfterNodes(env: Env, h: HubPass, s: Session): Session {
    ProcessEach(env, s, Nodes.NodeEvents, ReachedNodes(h))
  }

  function AfterPolicies(env: Env, spec: Spec, h: HubPass, s: Session): Session {
    ProcessEach(env, s, Policies.Handler(spec), HandledPolicies(spec, h))
  }

  /** The node scan, the policy scan, and the checks between them and the clean-up. */
  function AfterScans(env: Env, spec: Spec, h: HubPass, s: Session): Session {
    Process(env, AfterPolicies(env, spec, h, AfterNodes(env, h, s)), h.between)
  }

  /** The checks of a hub pass, one after the other, take s to s'. */
  ghost predicate HubChecked(env: Env, spec: Spec, h: HubPass, c: Cleanup, tr: Trace, s: Session, s': Session) {
    exists scanned, cleaned ::
      && PodsScanned(spec, h, tr, Process(env, s, h.before), scanned)
      && Cleaned(spec, c, AfterScans(env, spec, h, scanned), cleaned)
      && s' == Process(env, cleaned, h.after)
  }

  /** The checks of a hub pass. */
  method RunHubChecks(ledger: Ledger, spec: Spec, h: HubPass, c: Cleanup) returns (ghost tr: Trace)
    requires HubReadable(spec, h) && TerminationsRecorded(c)
    modifies ledger
    ensures HubChecked(ledger.EnvOf(spec.suspendEmailAlert), spec, h, c, tr, old(ledger.Now()), ledger.Now())
  {
    RunEvents(ledger, h.before, spec);
    tr := OnPodUpdateHub(ledger, h.view, spec, h.podLists, h.readable, h.podFaults);
    ghost var scanned := ledger.Now();
    OnNodeUpdateHub(ledger, spec, h.nodes);
    OnPolicyUpdateHub(ledger, spec, h.policies);
    RunEvents(ledger, h.between, spec);
    assert ledger.Now() == AfterScans(ledger.EnvOf(spec.suspendEmailAlert), spec, h, scanned);
    RunCleanup(ledger, c, spec);
    RunEvents(ledger, h.after, spec);
  }

  // ---------------------------------------------------------------- balance

  ghost predicate NeverFails(faults: nat -> Faults) {
    forall n :: faults(n) == NO_FAULTS
  }

  ghost predicate CleanupNeverFails(c: Cleanup) {
    forall file :: NeverFails(c.faults(file))
  }

  /** No file operation and no mail of the pod scan fails, and no two of its goroutines alert, or recover, one file. */
  ghost predicate ScanIsSafe(spec: Spec, h: HubPass, tr: Trace) {
    && (forall i :: NeverFails(h.podFaults(i)))
    && (Active(h.view, spec, h.podLists) && ListingsFor(ScanOf(spec, h), tr.listings) ==>
         AllOneSided(ScanPrograms(ScanOf(spec, h), tr.listings)))
  }

  lemma ProcessKeepsAllEven(env: Env, s: Session, events: seq<Event>)
    requires NeverFails(env.faults) && AllEven(s.world)
    ensures AllEven(Process(env, s, events).world)
  {
    if env.mailOn {
      ProcessFaultFree(env, s, events);
      RunKeepsAllEven(s.world, events);
    } else {
      ProcessSuspended(env, s, events);
    }
  }

  lemma ProcessEachKeepsAllEven<A>(env: Env, s: Session, f: A -> seq<Event>, xs: seq<A>)
    requires NeverFails(env.faults) && AllEven(s.world)
    ensures AllEven(ProcessEach(env, s, f, xs).world)
  {
    ProcessFlatMap(env, s, f, xs);
    ProcessKeepsAllEven(env, s, FlatMap(f, xs));
  }

  lemma ProgramNeverFails(events: seq<Event>, faults: nat -> Faults)
    requires NeverFails(faults)
    ensures forall c :: c in Program(events, faults) ==> c.faults == NO_FAULTS
  {
  }

  lemma {:induction false} JoinedNeverFails(programs: seq<seq<Call>>)
    requires NoFaults(programs)
    ensures forall c :: c in Joined(programs) ==> c.faults == NO_FAULTS
  {
    if programs != [] {
      var n := |programs| - 1;
      assert forall i :: 0 <= i < n ==> programs[..n][i] == programs[i];
      JoinedNeverFails(programs[..n]);
    }
  }

  lemma CleanedKeepsAllEven(spec: Spec, c: Cleanup, s: Session, s': Session)
    requires Cleaned(spec, c, s, s') && CleanupNeverFails(c) && AllEven(s.world)
    ensures AllEven(s'.world)
  {
    if c.readable && spec.suspendEmailAlert == Some(false) {
      var listing :| Lists(listing, s.world.files) && SameByPath(s'.world, RunCalls(s.world, CleanupCalls(c, listing)));
      var programs := CleanupPrograms(c.parse, c.clock, listing, PodsOf(c.podList), c.faults);
      forall i | 0 <= i < |programs|
        ensures forall call: Call :: call in programs[i] ==> call.faults == NO_FAULTS
      {
        ProgramNeverFails(FileRecovery(c.parse, c.clock, listing[i], PodsOf(c.podList)), c.faults(listing[i]));
      }
      JoinedNeverFails(programs);
      forall path: Path | path.dir == AlertDir
        ensures Even(s'.world, path)
      {
        assert Even(s.world, path);
        CallsKeepExcess(s.world, CleanupCalls(c, listing), path);
        SameByPathAt(s'.world, RunCalls(s.world, CleanupCalls(c, listing)), path);
        AgreeKeepsEven(s'.world, RunCalls(s.world, CleanupCalls(c, listing)), path);
      }
    }
  }

  lemma ScannedKeepsAllEven(spec: Spec, h: HubPass, tr: Trace, s: Session, s': Session)
    requires PodsScanned(spec, h, tr, s, s') && ScanIsSafe(spec, h, tr) && AllEven(s.world)
    ensures AllEven(s'.world)
  {
    if Active(h.view, spec, h.podLists) {
      var scan := ScanOf(spec, h);
      var programs := ScanPrograms(scan, tr.listings);
      forall i | 0 <= i < |programs|
        ensures forall call: Call :: call in programs[i] ==> call.faults == NO_FAULTS
      {
        ProgramNeverFails(HubScan.NodeEvents(scan, i, tr.listings[i]), h.podFaults(i));
      }
      OneSidedKeepsAllEven(s.world, programs, tr.schedule);
    }
  }

  /** A hub pass in which nothing fails and no two goroutines alert, or recover, one file keeps mails and files in balance. */
  lemma HubPassKeepsAllEven(env: Env, spec: Spec, h: HubPass, c: Cleanup, tr: Trace, s: Session, s': Session)
    requires HubChecked(env, spec, h, c, tr, s, s') && NeverFails(env.faults) && CleanupNeverFails(c)
    requires ScanIsSafe(spec, h, tr) && AllEven(s.world)
    ensures AllEven(s'.world)
  {
    var scanned, cleaned :|
      && PodsScanned(spec, h, tr, Process(env, s, h.before), scanned)
      && Cleaned(spec, c, AfterScans(env, spec, h, scanned), cleaned)
      && s' == Process(env, cleaned, h.after);
    ProcessKeepsAllEven(env, s, h.before);
    ScannedKeepsAllEven(spec, h, tr, Process(env, s, h.before), scanned);
    AfterScansKeepAllEven(env, spec, h, scanned);
    CleanedKeepsAllEven(spec, c, AfterScans(env, spec, h, scanned), cleaned);
    ProcessKeepsAllEven(env, cleaned, h.after);
  }

  lemma AfterScansKeepAllEven(env: Env, spec: Spec, h: HubPass, s: Session)
    requires NeverFails(env.faults) && AllEven(s.world)
    ensures AllEven(AfterScans(env, spec, h, s).world)
  {
    var s1 := AfterNodes(env, h, s);
    ProcessEachKeepsAllEven(env, s, Nodes.NodeEvents, ReachedNodes(h));
    ProcessEachKeepsAllEven(env, s1, Policies.Handler(spec), HandledPolicies(spec, h));
    ProcessKeepsAllEven(env, AfterPolicies(env, spec, h, s1), h.between);
  }

  /** A scan within which no file can be reached by two goroutines is safe, whatever its schedule. */
  lemma ApartScanIsOneSided(w: World, scan: Scan, tr: Trace, w': World)
    requires CompleteScan(w, scan, tr, w') && ApartFrom(w, scan)
    ensures AllOneSided(ScanPrograms(scan, tr.listings))
  {
    ApartFromIsDisjoint(w, scan, tr, w');
    forall path: Path | path.dir == AlertDir
      ensures OneSided(ScanPrograms(scan, tr.listings), path)
    {
      DisjointIsOneSided(ScanPrograms(scan, tr.listings), path);
    }
  }

  /** A shared file can make Healthy lie although nothing fails: container c of pod a-b and container b-c of pod a, failing
      on two nodes, are both alerted by the pod scan, and after the recoveries the alert directory is empty and an alert
      has not been resolved. */
  lemma SharedFileTurnsDishonest(view: View, spec: Spec, namespace: string, node1: string, node2: string)
    returns (schedule: seq<nat>, events: seq<Event>)
    requires Decide(view, spec, BrokenPod("a-b", namespace, node1, "c")) == HubPods.Handle
    requires Decide(view, spec, BrokenPod("a", namespace, node2, "b-c")) == HubPods.Handle
    ensures
      var p, q := BrokenPod("a-b", namespace, node1, "c"), BrokenPod("a", namespace, node2, "b-c");
      var s := Execute(Start(EMPTY, HubPrograms(view, spec, [Success([p]), Success([q])], i => n => NO_FAULTS)), schedule);
      var w := Run(s.world, events);
      AllDone(s) && HealthyListing(w) && !MailBalance(w)
  {
    var p := BrokenPod("a-b", namespace, node1, "c");
    BrokenPrograms(view, spec, namespace, node1, node2);
    schedule, events := TwoAlertsTurnDishonest(PodKey(p, p.statuses[0]));
  }
}
