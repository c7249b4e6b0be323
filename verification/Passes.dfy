/** What a whole pass of checks does to each file: a full hub pass, and an informer pass under the mutex. */
module Passes {
  import opened Basics
  import opened Alerts
  import Cluster
  import opened Goroutines
  import opened Conditions
  import opened Pods
  import opened PodFiles
  import opened HubScan
  import opened Nodes
  import opened Policies
  import opened ScanOrder
  import opened Checks
  import opened Reconciler

  ghost predicate Avoids(events: seq<Event>, path: Path) {
    forall e :: e in events ==> e.path != path
  }

  /** One of the three files of the node. */
  predicate OfNode(n: Cluster.Node, path: Path) {
    || path == Path(AlertDir, "." + n.name + "-mcp-issue.txt")
    || path == Path(AlertDir, "." + n.name + "-sched.txt")
    || path == Path(AlertDir, "." + n.name + "-ready.txt")
  }

  predicate OfPolicy(p: Policy, path: Path) {
    path == Path(AlertDir, "." + p.name + "-" + p.namespace + ".txt")
  }

  /** None of the checks that are not modelled beyond their events touches the file. */
  ghost predicate OthersAvoid(h: HubPass, path: Path) {
    Avoids(h.before, path) && Avoids(h.between, path) && Avoids(h.after, path)
  }

  /** No goroutine of the pod scan can reach the file. */
  ghost predicate ScanMisses(spec: Spec, h: HubPass, path: Path) {
    Active(h.view, spec, h.podLists) ==> forall i :: 0 <= i < |h.podLists.value| ==> !CanReach(ScanOf(spec, h), i, path)
  }

  /** The file belongs to no node that is reached, other than the m-th. */
  predicate NodesMiss(h: HubPass, path: Path, m: int) {
    forall k :: 0 <= k < |ReachedNodes(h)| && k != m ==> !OfNode(ReachedNodes(h)[k], path)
  }

  /** The file belongs to no policy that is handled, other than the m-th. */
  predicate PoliciesMiss(spec: Spec, h: HubPass, path: Path, m: int) {
    forall k :: 0 <= k < |HandledPolicies(spec, h)| && k != m ==> !OfPolicy(HandledPolicies(spec, h)[k].policy, path)
  }

  /** The clean-up recovers the file if it holds SENT. */
  predicate CleanupHits(c: Cleanup, path: Path) {
    c.readable && path.dir == AlertDir && SomeRecovers(c.parse, c.clock, path.name, PodsOf(c.podList))
  }

  /** Mails are on, nothing fails, and no file can be reached by two goroutines of the pod scan. */
  ghost predicate Calm(env: Env, spec: Spec, h: HubPass, c: Cleanup, s: Session) {
    && env.mailOn && NeverFails(env.faults) && spec.suspendEmailAlert == Some(false) && CleanupNeverFails(c)
    && (Active(h.view, spec, h.podLists) ==>
         NoneFails(ScanOf(spec, h)) && ApartFrom(Process(env, s, h.before).world, ScanOf(spec, h)))
  }

  lemma ProcessMisses(env: Env, s: Session, events: seq<Event>, path: Path)
    requires env.mailOn && NeverFails(env.faults) && Avoids(events, path)
    ensures Agree(s.world, Process(env, s, events).world, path)
  {
    ProcessFaultFree(env, s, events);
    RunFrame(s.world, events, path);
  }

  /** Of many handled objects, the one that has the file decides. */
  lemma {:induction false} OnlyOne<A>(w: World, f: A -> seq<Event>, xs: seq<A>, m: int, path: Path)
    requires forall k :: 0 <= k < |xs| && k != m ==> Avoids(f(xs[k]), path)
    ensures Agree(Run(w, FlatMap(f, xs)), Run(w, if 0 <= m < |xs| then f(xs[m]) else []), path)
  {
    assert Run(w, []) == w;
    if xs != [] {
      var n := |xs| - 1;
      var before := Run(w, FlatMap(f, xs[..n]));
      OnlyOne(w, f, xs[..n], m, path);
      RunConcat(w, FlatMap(f, xs[..n]), f(xs[n]));
      if n == m {
        RunCallsLocal(before, w, Faultless(f(xs[n])), path);
      } else {
        RunFrame(before, f(xs[n]), path);
      }
    }
  }

  /** The events of the m-th node that is reached, if there is one. */
  function NodePart(h: HubPass, m: int): seq<Event> {
    if 0 <= m < |ReachedNodes(h)| then Nodes.NodeEvents(ReachedNodes(h)[m]) else []
  }

  function PolicyPart(spec: Spec, h: HubPass, m: int): seq<Event> {
    if 0 <= m < |HandledPolicies(spec, h)| then PolicyUpdateEvents(spec, HandledPolicies(spec, h)[m]) else []
  }

  lemma NodeAvoids(n: Cluster.Node, path: Path)
    requires !OfNode(n, path)
    ensures Avoids(Nodes.NodeEvents(n), path)
  {
    ReadyMembers(n.conditions, ReadyKey(n));
  }

  lemma PolicyAvoids(spec: Spec, seen: Seen, path: Path)
    requires !OfPolicy(seen.policy, path)
    ensures Avoids(PolicyUpdateEvents(spec, seen), path)
  {
    DetailEventsExact(seen.policy.details, PolicyKey(seen.policy), seen.now);
  }

  lemma NodesStage(env: Env, h: HubPass, s: Session, path: Path, m: int)
    requires env.mailOn && NeverFails(env.faults) && NodesMiss(h, path, m)
    ensures Agree(AfterNodes(env, h, s).world, Run(s.world, NodePart(h, m)), path)
  {
    var xs := ReachedNodes(h);
    ProcessFlatMap(env, s, Nodes.NodeEvents, xs);
    ProcessFaultFree(env, s, FlatMap(Nodes.NodeEvents, xs));
    forall k | 0 <= k < |xs| && k != m
      ensures Avoids(Nodes.NodeEvents(xs[k]), path)
    {
      NodeAvoids(xs[k], path);
    }
    OnlyOne(s.world, Nodes.NodeEvents, xs, m, path);
  }

  lemma PoliciesStage(env: Env, spec: Spec, h: HubPass, s: Session, path: Path, m: int)
    requires env.mailOn && NeverFails(env.faults) && PoliciesMiss(spec, h, path, m)
    ensures Agree(AfterPolicies(env, spec, h, s).world, Run(s.world, PolicyPart(spec, h, m)), path)
  {
    var xs := HandledPolicies(spec, h);
    ProcessFlatMap(env, s, Policies.Handler(spec), xs);
    ProcessFaultFree(env, s, FlatMap(Policies.Handler(spec), xs));
    forall k | 0 <= k < |xs| && k != m
      ensures Avoids(Policies.Handler(spec)(xs[k]), path)
    {
      PolicyAvoids(spec, xs[k], path);
    }
    OnlyOne(s.world, Policies.Handler(spec), xs, m, path);
  }

  /** What a clean-up without failures does to a file. */
  lemma CleanupStage(spec: Spec, c: Cleanup, s: Session, s': Session, path: Path)
    requires Cleaned(spec, c, s, s') && CleanupNeverFails(c) && spec.suspendEmailAlert == Some(false)
    ensures if CleanupHits(c, path) && Sent(s.world, path) then Cleared(s.world, s'.world, path) else Agree(s.world, s'.world, path)
  {
    if c.readable {
      var listing :| Lists(listing, s.world.files) && SameByPath(s'.world, RunCalls(s.world, CleanupCalls(c, listing)));
      CleanupFile(s.world, c.parse, c.clock, listing, PodsOf(c.podList), c.faults, path);
      SameByPathAt(s'.world, RunCalls(s.world, CleanupCalls(c, listing)), path);
    }
  }

  /** A hub pass at one file: x is the ledger after the pod scan, y the ledger before the clean-up. */
  lemma HubPassAt(env: Env, spec: Spec, h: HubPass, c: Cleanup, tr: Trace, s: Session, s': Session, path: Path, mn: int, mp: int)
    returns (x: World, y: World)
    requires HubChecked(env, spec, h, c, tr, s, s') && Calm(env, spec, h, c, s) && OthersAvoid(h, path)
    requires NodesMiss(h, path, mn) && PoliciesMiss(spec, h, path, mp)
    ensures Agree(s.world, Process(env, s, h.before).world, path)
    ensures if Active(h.view, spec, h.podLists)
            then CompleteScan(Process(env, s, h.before).world, ScanOf(spec, h), tr, x)
            else x == Process(env, s, h.before).world
    ensures Agree(y, Run(Run(x, NodePart(h, mn)), PolicyPart(spec, h, mp)), path)
    ensures if CleanupHits(c, path) && Sent(y, path) then Cleared(y, s'.world, path) else Agree(y, s'.world, path)
  {
    var scanned, cleaned :|
      && PodsScanned(spec, h, tr, Process(env, s, h.before), scanned)
      && Cleaned(spec, c, AfterScans(env, spec, h, scanned), cleaned)
      && s' == Process(env, cleaned, h.after);
    x, y := scanned.world, AfterScans(env, spec, h, scanned).world;
    ProcessMisses(env, s, h.before, path);
    ScansAt(env, spec, h, scanned, path, mn, mp);
    CleanupStage(spec, c, AfterScans(env, spec, h, scanned), cleaned, path);
    ProcessMisses(env, cleaned, h.after, path);
  }

  lemma ScansAt(env: Env, spec: Spec, h: HubPass, s: Session, path: Path, mn: int, mp: int)
    requires env.mailOn && NeverFails(env.faults) && Avoids(h.between, path)
    requires NodesMiss(h, path, mn) && PoliciesMiss(spec, h, path, mp)
    ensures Agree(AfterScans(env, spec, h, s).world, Run(Run(s.world, NodePart(h, mn)), PolicyPart(spec, h, mp)), path)
  {
    var s1 := AfterNodes(env, h, s);
    var s2 := AfterPolicies(env, spec, h, s1);
    NodesStage(env, h, s, path, mn);
    PoliciesStage(env, spec, h, s1, path, mp);
    RunCallsLocal(s1.world, Run(s.world, NodePart(h, mn)), Faultless(PolicyPart(spec, h, mp)), path);
    ProcessMisses(env, s2, h.between, path);
  }

  lemma ScanStageMisses(spec: Spec, h: HubPass, tr: Trace, w: World, x: World, path: Path)
    requires if Active(h.view, spec, h.podLists) then CompleteScan(w, ScanOf(spec, h), tr, x) else x == w
    requires ScanMisses(spec, h, path)
    ensures Agree(w, x, path)
  {
    if Active(h.view, spec, h.podLists) {
      ScanAvoids(w, ScanOf(spec, h), tr, x, path);
    }
  }

  /** A file that no check of the pass touches stays. */
  lemma HubPassMisses(env: Env, spec: Spec, h: HubPass, c: Cleanup, tr: Trace, s: Session, s': Session, path: Path)
    requires HubChecked(env, spec, h, c, tr, s, s') && Calm(env, spec, h, c, s) && OthersAvoid(h, path)
    requires ScanMisses(spec, h, path) && NodesMiss(h, path, -1) && PoliciesMiss(spec, h, path, -1) && !CleanupHits(c, path)
    ensures Agree(s.world, s'.world, path)
  {
    var x, y := HubPassAt(env, spec, h, c, tr, s, s', path, -1, -1);
    ScanStageMisses(spec, h, tr, Process(env, s, h.before).world, x, path);
    assert Run(x, []) == x;
  }

  /** A file that only the checks outside the scans and the clean-up touch: their events take effect in their order. */
  lemma HubOthersVerdict(env: Env, spec: Spec, h: HubPass, c: Cleanup, tr: Trace, s: Session, s': Session, path: Path)
    requires HubChecked(env, spec, h, c, tr, s, s') && Calm(env, spec, h, c, s)
    requires ScanMisses(spec, h, path) && NodesMiss(h, path, -1) && PoliciesMiss(spec, h, path, -1) && !CleanupHits(c, path)
    ensures Agree(s'.world, Run(s.world, h.before + h.between + h.after), path)
  {
    var scanned, cleaned :|
      && PodsScanned(spec, h, tr, Process(env, s, h.before), scanned)
      && Cleaned(spec, c, AfterScans(env, spec, h, scanned), cleaned)
      && s' == Process(env, cleaned, h.after);
    var w := Run(s.world, h.before);
    ProcessFaultFree(env, s, h.before);
    ScanStageMisses(spec, h, tr, w, scanned.world, path);
    var s1 := AfterNodes(env, h, scanned);
    var s2 := AfterPolicies(env, spec, h, s1);
    NodesStage(env, h, scanned, path, -1);
    PoliciesStage(env, spec, h, s1, path, -1);
    assert Run(scanned.world, []) == scanned.world && Run(s1.world, []) == s1.world;
    ProcessFaultFree(env, s2, h.between);
    CleanupStage(spec, c, Process(env, s2, h.between), cleaned, path);
    ProcessFaultFree(env, cleaned, h.after);
    RunConcat(s.world, h.before, h.between);
    RunConcat(s.world, h.before + h.between, h.after);
    RunCallsLocal(s2.world, w, Faultless(h.between), path);
    RunCallsLocal(cleaned.world, Run(w, h.between), Faultless(h.after), path);
  }

  /** The file of a policy that the pass handles and no other check touches: the pass leaves it as the policy handler's
      verdict says, and keeps it when the policy is ignored. */
  lemma HubPolicyVerdict(env: Env, spec: Spec, h: HubPass, c: Cleanup, tr: Trace, s: Session, s': Session, m: nat)
    requires HubChecked(env, spec, h, c, tr, s, s') && Calm(env, spec, h, c, s) && m < |HandledPolicies(spec, h)|
    requires
      var p := HandledPolicies(spec, h)[m].policy;
      var path := Path(AlertDir, "." + p.name + "-" + p.namespace + ".txt");
      && OthersAvoid(h, path) && ScanMisses(spec, h, path) && !CleanupHits(c, path)
      && NodesMiss(h, path, -1) && PoliciesMiss(spec, h, path, m)
    ensures
      var p, now := HandledPolicies(spec, h)[m].policy, HandledPolicies(spec, h)[m].now;
      var path := Path(AlertDir, "." + p.name + "-" + p.namespace + ".txt");
      Sent(s'.world, path) <==>
        if PolicyIgnored(spec, p) then Sent(s.world, path)
        else FailsLately(p, now) || (Sent(s.world, path) && !Fine(p))
  {
    var p, now := HandledPolicies(spec, h)[m].policy, HandledPolicies(spec, h)[m].now;
    var path := PolicyKey(p);
    var x, y := HubPassAt(env, spec, h, c, tr, s, s', path, -1, m);
    ScanStageMisses(spec, h, tr, Process(env, s, h.before).world, x, path);
    assert Run(x, []) == x;
    HandledExact(spec, h.policies.value);
    PolicyVerdict(x, p, now);
  }

  /** The files of a node that the pass reaches and no other check touches. */
  lemma HubNodeVerdict(env: Env, spec: Spec, h: HubPass, c: Cleanup, tr: Trace, s: Session, s': Session, m: nat, path: Path)
    requires HubChecked(env, spec, h, c, tr, s, s') && Calm(env, spec, h, c, s) && m < |ReachedNodes(h)|
    requires OthersAvoid(h, path) && ScanMisses(spec, h, path) && !CleanupHits(c, path)
    requires NodesMiss(h, path, m) && PoliciesMiss(spec, h, path, -1)
    ensures
      var n := ReachedNodes(h)[m];
      var goesOn := LooksAt(n) && !ReportsStuck(n);
      && (path == Path(AlertDir, "." + n.name + "-mcp-issue.txt") ==>
           (Sent(s'.world, path) <==> ReportsStuck(n) || (Sent(s.world, path) && !(LooksAt(n) && UpdateState(n) == "Done"))))
      && (path == Path(AlertDir, "." + n.name + "-sched.txt") ==>
           (Sent(s'.world, path) <==> if goesOn then n.unschedulable else Sent(s.world, path)))
      && (path == Path(AlertDir, "." + n.name + "-ready.txt") ==>
           (Sent(s'.world, path) <==>
             if goesOn && !n.unschedulable
             then LastReadyIs(n.conditions, "False") || (Sent(s.world, path) && !LastReadyIs(n.conditions, "True"))
             else Sent(s.world, path)))
  {
    var n := ReachedNodes(h)[m];
    var x, y := HubPassAt(env, spec, h, c, tr, s, s', path, m, -1);
    ScanStageMisses(spec, h, tr, Process(env, s, h.before).world, x, path);
    assert Run(Run(x, Nodes.NodeEvents(n)), []) == Run(x, Nodes.NodeEvents(n));
    NodeVerdict(x, n);
  }

  /** The file of a container of a live pod that the pass handles, and that no other check and no other pod touches. */
  lemma HubContainerVerdict(env: Env, spec: Spec, h: HubPass, c: Cleanup, tr: Trace, s: Session, s': Session,
                            i: nat, k0: nat, pod: Pod, cs: ContainerStatus)
    requires HubChecked(env, spec, h, c, tr, s, s') && Calm(env, spec, h, c, s) && Active(h.view, spec, h.podLists)
    requires i < |h.podLists.value| && k0 < |HandledAt(ScanOf(spec, h), i)| && pod == HandledAt(ScanOf(spec, h), i)[k0]
    requires Checked(ScanOf(spec, h), pod, cs)
    requires forall j :: 0 <= j < |HandledAt(ScanOf(spec, h), i)| && j != k0 ==>
      !PodCanReach(spec, HandledAt(ScanOf(spec, h), i)[j], PodKey(pod, cs))
    requires OthersAvoid(h, PodKey(pod, cs)) && !CleanupHits(c, PodKey(pod, cs))
    requires NodesMiss(h, PodKey(pod, cs), -1) && PoliciesMiss(spec, h, PodKey(pod, cs), -1)
    ensures
      var v := h.view.visit(pod, cs);
      Sent(s'.world, PodKey(pod, cs)) <==>
        Failing(h.view.parse, pod, cs, v) || (Sent(s.world, PodKey(pod, cs)) && !Healed(h.view.parse, cs, v))
  {
    var x, y := HubPassAt(env, spec, h, c, tr, s, s', PodKey(pod, cs), -1, -1);
    ScanVerdict(Process(env, s, h.before).world, ScanOf(spec, h), tr, x, i, k0, pod, cs);
    assert Run(x, []) == x;
  }

  /** A pod under deletion that the pass handles: no file that mentions it, and that no live pod and no later check owns,
      still holds SENT. */
  lemma HubReclaims(env: Env, spec: Spec, h: HubPass, c: Cleanup, tr: Trace, s: Session, s': Session, i: nat, pod: Pod, path: Path)
    requires HubChecked(env, spec, h, c, tr, s, s') && Calm(env, spec, h, c, s) && Active(h.view, spec, h.podLists)
    requires i < |h.podLists.value| && pod in HandledAt(ScanOf(spec, h), i) && pod.deleting && !PodIgnored(spec, pod)
    requires path.dir == AlertDir && Contains(path.name, pod.name) && Contains(path.name, pod.namespace)
    requires !ContainerFile(ScanOf(spec, h), path) && OthersAvoid(h, path)
    requires NodesMiss(h, path, -1) && PoliciesMiss(spec, h, path, -1)
    ensures !Sent(s'.world, path)
    ensures Sent(s.world, path) ==> Cleared(s.world, s'.world, path)
  {
    var x, y := HubPassAt(env, spec, h, c, tr, s, s', path, -1, -1);
    ScanReclaims(Process(env, s, h.before).world, ScanOf(spec, h), tr, x, i, pod, path);
    assert Run(x, []) == x;
  }

  /** A file that only the clean-up of the pass touches is cleared exactly when it holds SENT and a container recovers it. */
  lemma HubCleanupVerdict(env: Env, spec: Spec, h: HubPass, c: Cleanup, tr: Trace, s: Session, s': Session, path: Path)
    requires HubChecked(env, spec, h, c, tr, s, s') && Calm(env, spec, h, c, s) && OthersAvoid(h, path)
    requires ScanMisses(spec, h, path) && NodesMiss(h, path, -1) && PoliciesMiss(spec, h, path, -1)
    ensures if CleanupHits(c, path) && Sent(s.world, path) then Cleared(s.world, s'.world, path)
            else Agree(s.world, s'.world, path)
  {
    var x, y := HubPassAt(env, spec, h, c, tr, s, s', path, -1, -1);
    ScanStageMisses(spec, h, tr, Process(env, s, h.before).world, x, path);
    assert Run(x, []) == x;
  }

  // ---------------------------------------------------------------- a call

  /** What a call of Reconcile checks: on a hub that it can scan a full hub pass; otherwise, when it can run and finds no
      factory or one whose timer is more than three minutes old, the reachability checks, and when the factory was there
      and the clean-up timer is more than an hour old, the clean-up after them; and nothing in every other call. */
  lemma CallDoes(faults: nat -> Faults, s: Situation, req: Request, tr: Trace, s': Situation)
    requires Called(faults, s, req, tr, s')
    ensures
      var env := Env(req.suspendEmailAlert == Some(false), faults);
      var runs := PastGuards(req) && ReadyOf(s.conditions).Some? && !CannotRun(req);
      var cleans := s.life.factory.Some? && s.life.podCleaner.Some? &&
                    s.life.podCleaner.value < req.readings.cleanup - 3_600_000_000_000;
      if runs && req.hub == Some(true)
      then HubChecked(env, SpecOf(req), req.hubPass, req.cleanup, tr, s.session, s'.session) && s'.life == s.life
      else if runs && Renews(req, s.life)
      then if cleans then Cleaned(SpecOf(req), req.cleanup, Process(env, s.session, req.probes), s'.session)
           else s'.session == Process(env, s.session, req.probes)
      else s'.session == s.session && s'.life == s.life
  {
  }

  /** What an informer pass without failures does to a file that its reachability checks do not touch: it clears the file when
      the clean-up is due, a container recovers the file and it holds SENT, and otherwise leaves it alone. */
  lemma InformerPassVerdict(faults: nat -> Faults, s: Situation, req: Request, tr: Trace, s': Situation, path: Path)
    requires Called(faults, s, req, tr, s') && req.hub != Some(true)
    requires NeverFails(faults) && CleanupNeverFails(req.cleanup) && req.suspendEmailAlert == Some(false)
    requires Avoids(req.probes, path)
    ensures
      var runs := PastGuards(req) && ReadyOf(s.conditions).Some? && !CannotRun(req);
      var cleans := runs && Renews(req, s.life) && s.life.factory.Some? && s.life.podCleaner.Some? &&
                    s.life.podCleaner.value < req.readings.cleanup - 3_600_000_000_000;
      if cleans && CleanupHits(req.cleanup, path) && Sent(s.session.world, path)
      then Cleared(s.session.world, s'.session.world, path)
      else Agree(s.session.world, s'.session.world, path)
  {
    var env := Env(true, faults);
    CallDoes(faults, s, req, tr, s');
    ProcessMisses(env, s.session, req.probes, path);
    if PastGuards(req) && ReadyOf(s.conditions).Some? && !CannotRun(req) && Renews(req, s.life) &&
       s.life.factory.Some? && s.life.podCleaner.Some? &&
       s.life.podCleaner.value < req.readings.cleanup - 3_600_000_000_000 {
      CleanupStage(SpecOf(req), req.cleanup, Process(env, s.session, req.probes), s'.session, path);
    }
  }
}
