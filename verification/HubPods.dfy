/** The hub pod scan: one goroutine for each node, each going through the pods of its node. */
module HubPods {
  import opened Basics
  import opened Alerts
  import opened Cluster
  import opened Ignores
  import opened Goroutines
  import opened Races
  import opened Pods
  import opened PodFiles

  /** Whether the alert directory can be read for this pod, should it be deleted. */
  type Readable = Pod -> bool

  const ALWAYS: Readable := pod => true

  /** The goroutine of a node gives up at this pod. */
  predicate Stops(view: View, spec: Spec, readable: Readable, pod: Pod) {
    !PodIgnored(spec, pod) && (PodHeld(view, pod) || (pod.deleting && !readable(pod)))
  }

  /** How many pods of its node a goroutine handles. */
  function Visited(view: View, spec: Spec, readable: Readable, pods: seq<Pod>): (k: nat)
    ensures k <= |pods|
  {
    if pods == [] || Stops(view, spec, readable, pods[0]) then 0 else 1 + Visited(view, spec, readable, pods[1..])
  }

  /** The events of one pod; listing is what a deleted pod reads from the alert directory. */
  function PodScanEvents(view: View, spec: Spec, pod: Pod, listing: seq<string>): seq<Event> {
    if PodIgnored(spec, pod) then []
    else if pod.deleting then SweepEvents(listing, pod)
    else ContainerEvents(view, pod)
  }

  function ScanEvents(view: View, spec: Spec, pods: seq<Pod>, listings: seq<seq<string>>): seq<Event>
    requires |pods| == |listings|
  {
    if pods == [] then []
    else
      var n := |pods| - 1;
      ScanEvents(view, spec, pods[..n], listings[..n]) + PodScanEvents(view, spec, pods[n], listings[n])
  }

  /** Each listing is the alert directory at the moment its pod is reached. */
  ghost predicate ListingsFit(view: View, spec: Spec, pods: seq<Pod>, listings: seq<seq<string>>, env: Env, s: Session)
    requires |pods| == |listings|
  {
    forall i :: 0 <= i < |pods| && pods[i].deleting && !PodIgnored(spec, pods[i]) ==>
      Lists(listings[i], Process(env, s, ScanEvents(view, spec, pods[..i], listings[..i])).world.files)
  }

  /** What the guards of the scan say about a pod. */
  datatype Decision = Skip | GiveUp | Handle

  function Decide(view: View, spec: Spec, pod: Pod): Decision {
    if PodIgnored(spec, pod) then Skip else if PodHeld(view, pod) then GiveUp else Handle
  }

  /** The guards: the ignore list, the node of the pod, and the child policies of its namespace. */
  method Consider(view: View, spec: Spec, pod: Pod) returns (d: Decision)
    requires EntriesHaveNames(spec.ignored, "pod", pod.namespace)
    ensures d == Decide(view, spec, pod)
  {
    var ignored := IgnoredResource(spec.ignored, "pod", "podnamespace", pod.namespace, pod.name);
    if ignored {
      return Skip;
    }
    var affected := CheckSingleNodeReadiness(view.api, pod.nodeName);
    if affected.Failure? || affected.value {
      return GiveUp;
    }
    var sameNs := view.childPolicy(pod.namespace);
    if sameNs.Failure? || sameNs.value {
      return GiveUp;
    }
    return Handle;
  }

  /** The scan reads the ignore list for the pods it visits and the one at which it gives up. */
  ghost predicate NamesReadable(view: View, spec: Spec, readable: Readable, pods: seq<Pod>) {
    forall i :: 0 <= i < |pods| && i <= Visited(view, spec, readable, pods) ==>
      EntriesHaveNames(spec.ignored, "pod", pods[i].namespace)
  }

  /** One pod of the scan of a node. */
  method ScanPod(ledger: Ledger, view: View, spec: Spec, pod: Pod, readable: Readable)
    returns (stop: bool, ghost listing: seq<string>)
    requires EntriesHaveNames(spec.ignored, "pod", pod.namespace)
    modifies ledger
    ensures stop <==> Stops(view, spec, readable, pod)
    ensures stop ==> ledger.Now() == old(ledger.Now())
    ensures !stop && pod.deleting && !PodIgnored(spec, pod) ==> Lists(listing, old(ledger.files))
    ensures !stop ==>
      ledger.Now() == Process(ledger.EnvOf(spec.suspendEmailAlert), old(ledger.Now()), PodScanEvents(view, spec, pod, listing))
  {
    listing := [];
    var decision := Consider(view, spec, pod);
    if decision == Skip {
      return false, [];
    } else if decision == GiveUp {
      return true, [];
    }
    if !pod.deleting {
      ProcessConcat(ledger.EnvOf(spec.suspendEmailAlert), ledger.Now(),
                    StatusEvents(view, pod, pod.initStatuses), StatusEvents(view, pod, pod.statuses));
      CheckStatuses(ledger, view, pod, pod.initStatuses, spec);
      CheckStatuses(ledger, view, pod, pod.statuses, spec);
    } else {
      if !readable(pod) {
        return true, [];
      }
      var names := ledger.ReadDir();
      listing := names;
      Sweep(ledger, names, pod, spec);
    }
    stop := false;
  }

  /** The pods of one node, in order. */
  method ScanPods(ledger: Ledger, view: View, spec: Spec, pods: seq<Pod>, readable: Readable)
    returns (ghost listings: seq<seq<string>>)
    requires NamesReadable(view, spec, readable, pods)
    modifies ledger
    ensures |listings| == Visited(view, spec, readable, pods)
    ensures ListingsFit(view, spec, pods[..|listings|], listings, ledger.EnvOf(spec.suspendEmailAlert), old(ledger.Now()))
    ensures ledger.Now() == Process(ledger.EnvOf(spec.suspendEmailAlert), old(ledger.Now()),
                                    ScanEvents(view, spec, pods[..|listings|], listings))
  {
    ghost var env, start := ledger.EnvOf(spec.suspendEmailAlert), ledger.Now();
    listings := [];
    for i := 0 to |pods|
      invariant |listings| == i
      invariant Visited(view, spec, readable, pods) == i + Visited(view, spec, readable, pods[i..])
      invariant ListingsFit(view, spec, pods[..i], listings, env, start)
      invariant ledger.Now() == Process(env, start, ScanEvents(view, spec, pods[..i], listings))
    {
      assert pods[i..][1..] == pods[i + 1..];
      var stop, listing := ScanPod(ledger, view, spec, pods[i], readable);
      if stop {
        return;
      }
      ListingsGrow(view, spec, pods, i, listings, env, start, listing);
      ScanGrows(view, spec, pods, i, listings, listing);
      ProcessConcat(env, start, ScanEvents(view, spec, pods[..i], listings), PodScanEvents(view, spec, pods[i], listing));
      listings := listings + [listing];
    }
    assert pods[..|pods|] == pods;
  }

  /** The goroutine of one node, run alone. podList is Failure when the query for the pods of the node fails. */
  method ScanNode(ledger: Ledger, view: View, spec: Spec, podList: Result<seq<Pod>>, readable: Readable)
    returns (ghost listings: seq<seq<string>>)
    requires NamesReadable(view, spec, readable, PodsOf(podList))
    modifies ledger
    ensures |listings| == Visited(view, spec, readable, PodsOf(podList))
    ensures
      var pods := PodsOf(podList)[..|listings|];
      && ListingsFit(view, spec, pods, listings, ledger.EnvOf(spec.suspendEmailAlert), old(ledger.Now()))
      && ledger.Now() == Process(ledger.EnvOf(spec.suspendEmailAlert), old(ledger.Now()),
                                 ScanEvents(view, spec, pods, listings))
    ensures NoneDeleting(view, spec, podList) ==>
      ledger.Now() == Process(ledger.EnvOf(spec.suspendEmailAlert), old(ledger.Now()), NodeScan(view, spec, podList))
  {
    var pods := if podList.Success? then podList.value else [];
    listings := ScanPods(ledger, view, spec, pods, readable);
    if NoneDeleting(view, spec, podList) {
      VisitedUnread(view, spec, readable, podList);
      ListingsIrrelevant(view, spec, VisitedPods(view, spec, podList), listings, Blank(|listings|));
    }
  }

  lemma ScanGrows(view: View, spec: Spec, pods: seq<Pod>, i: nat, listings: seq<seq<string>>, listing: seq<string>)
    requires i < |pods| && |listings| == i
    ensures ScanEvents(view, spec, pods[..i + 1], listings + [listing]) ==
            ScanEvents(view, spec, pods[..i], listings) + PodScanEvents(view, spec, pods[i], listing)
  {
    assert pods[..i + 1][..i] == pods[..i] && (listings + [listing])[..i] == listings;
  }

  lemma ListingsGrow(view: View, spec: Spec, pods: seq<Pod>, i: nat, listings: seq<seq<string>>, env: Env, s: Session,
                     listing: seq<string>)
    requires i < |pods| && |listings| == i && ListingsFit(view, spec, pods[..i], listings, env, s)
    requires pods[i].deleting && !PodIgnored(spec, pods[i]) ==>
      Lists(listing, Process(env, s, ScanEvents(view, spec, pods[..i], listings)).world.files)
    ensures ListingsFit(view, spec, pods[..i + 1], listings + [listing], env, s)
  {
    var ps, ls := pods[..i + 1], listings + [listing];
    assert ps[..i] == pods[..i] && ls[..i] == listings;
    forall k | 0 <= k < |ps| && ps[k].deleting && !PodIgnored(spec, ps[k])
      ensures Lists(ls[k], Process(env, s, ScanEvents(view, spec, ps[..k], ls[..k])).world.files)
    {
      if k < i {
        assert ps[..k] == pods[..i][..k] && ls[..k] == listings[..k];
      }
    }
  }

  lemma {:induction false} VisitedDoNotStop(view: View, spec: Spec, readable: Readable, pods: seq<Pod>)
    ensures
      var k := Visited(view, spec, readable, pods);
      && (forall i :: 0 <= i < k ==>
           PodIgnored(spec, pods[i]) || (!PodHeld(view, pods[i]) && (pods[i].deleting ==> readable(pods[i]))))
      && (k < |pods| ==>
           !PodIgnored(spec, pods[k]) && (PodHeld(view, pods[k]) || (pods[k].deleting && !readable(pods[k]))))
  {
    if pods != [] && !Stops(view, spec, readable, pods[0]) {
      VisitedDoNotStop(view, spec, readable, pods[1..]);
    }
  }

  /** The pods of a node that its goroutine handles when the alert directory can be read. */
  function VisitedPods(view: View, spec: Spec, podList: Result<seq<Pod>>): seq<Pod> {
    PodsOf(podList)[..Visited(view, spec, ALWAYS, PodsOf(podList))]
  }

  /** No pod that is handled is being deleted. */
  ghost predicate NoneDeleting(view: View, spec: Spec, podList: Result<seq<Pod>>) {
    forall pod :: pod in VisitedPods(view, spec, podList) && pod.deleting ==> PodIgnored(spec, pod)
  }

  lemma {:induction false} VisitedWithoutReading(view: View, spec: Spec, readable: Readable, pods: seq<Pod>)
    requires forall i :: 0 <= i < Visited(view, spec, ALWAYS, pods) && pods[i].deleting ==> PodIgnored(spec, pods[i])
    ensures Visited(view, spec, readable, pods) == Visited(view, spec, ALWAYS, pods)
  {
    if pods != [] && !Stops(view, spec, ALWAYS, pods[0]) {
      VisitedWithoutReading(view, spec, readable, pods[1..]);
    }
  }

  /** Where nothing is deleted it does not matter whether the alert directory can be read. */
  lemma VisitedUnread(view: View, spec: Spec, readable: Readable, podList: Result<seq<Pod>>)
    requires NoneDeleting(view, spec, podList)
    ensures Visited(view, spec, readable, PodsOf(podList)) == |VisitedPods(view, spec, podList)|
  {
    var pods := VisitedPods(view, spec, podList);
    forall i | 0 <= i < |pods| && PodsOf(podList)[i].deleting
      ensures PodIgnored(spec, PodsOf(podList)[i])
    {
      assert pods[i] in pods;
    }
    VisitedWithoutReading(view, spec, readable, PodsOf(podList));
  }

  function Blank(n: nat): (listings: seq<seq<string>>)
    ensures |listings| == n
  {
    seq(n, i => [])
  }

  /** The events of a goroutine that meets no deleted pod. */
  function NodeScan(view: View, spec: Spec, podList: Result<seq<Pod>>): seq<Event> {
    var pods := VisitedPods(view, spec, podList);
    ScanEvents(view, spec, pods, Blank(|pods|))
  }

  lemma {:induction false} ListingsIrrelevant(view: View, spec: Spec, pods: seq<Pod>, a: seq<seq<string>>, b: seq<seq<string>>)
    requires |a| == |b| == |pods|
    requires forall pod :: pod in pods && pod.deleting ==> PodIgnored(spec, pod)
    ensures ScanEvents(view, spec, pods, a) == ScanEvents(view, spec, pods, b)
  {
    if pods != [] {
      var n := |pods| - 1;
      assert pods[n] in pods && forall pod :: pod in pods[..n] ==> pod in pods;
      ListingsIrrelevant(view, spec, pods[..n], a[..n], b[..n]);
    }
  }

  /** What the informer handler does for one pod. */
  function PodHandler(view: View, spec: Spec): Pod -> seq<Event> {
    pod => PodUpdateEvents(view, spec, pod)
  }

  /** The informer handler applied, pod by pod, to the pods of a node before the first one at which the hub scan of the
      node gives up. */
  function HandledPods(view: View, spec: Spec, podList: Result<seq<Pod>>): seq<Event> {
    FlatMap(PodHandler(view, spec), VisitedPods(view, spec, podList))
  }

  lemma {:induction false} ScanIsHandler(view: View, spec: Spec, pods: seq<Pod>, listings: seq<seq<string>>)
    requires |pods| == |listings| && Gate(view.api) == Success(false)
    requires forall pod :: pod in pods ==> PodIgnored(spec, pod) || !(pod.deleting || PodHeld(view, pod))
    ensures ScanEvents(view, spec, pods, listings) == FlatMap(PodHandler(view, spec), pods)
  {
    if pods != [] {
      var n := |pods| - 1;
      assert pods[n] in pods && forall pod :: pod in pods[..n] ==> pod in pods;
      ScanIsHandler(view, spec, pods[..n], listings[..n]);
    }
  }

  /** Refinement: with no update in progress and no pod being deleted, the goroutine of a node has the effect of the
      informer handler applied, pod by pod, to the pods before the first one at which it gives up. */
  lemma NodeScanRefinesHandler(view: View, spec: Spec, podList: Result<seq<Pod>>)
    requires Gate(view.api) == Success(false) && NoneDeleting(view, spec, podList)
    ensures NodeScan(view, spec, podList) == HandledPods(view, spec, podList)
  {
    var pods := VisitedPods(view, spec, podList);
    VisitedDoNotStop(view, spec, ALWAYS, PodsOf(podList));
    forall pod | pod in pods
      ensures PodIgnored(spec, pod) || !(pod.deleting || PodHeld(view, pod))
    {
      var i :| 0 <= i < |pods| && pods[i] == pod;
      assert !Stops(view, spec, ALWAYS, PodsOf(podList)[i]);
    }
    ScanIsHandler(view, spec, pods, Blank(|pods|));
  }

  /** The goroutines of the scan, one for each node; faults gives what the n-th call of goroutine i meets. */
  function HubPrograms(view: View, spec: Spec, podLists: seq<Result<seq<Pod>>>, faults: nat -> nat -> Faults)
    : (programs: seq<seq<Call>>)
    ensures |programs| == |podLists|
  {
    seq(|podLists|, i requires 0 <= i < |podLists| => Program(NodeScan(view, spec, podLists[i]), faults(i)))
  }

  predicate HasStatus(pod: Pod, c: ContainerStatus) {
    c in pod.initStatuses || c in pod.statuses
  }

  /** No file belongs to containers on two nodes. */
  ghost predicate KeysDistinctAcrossNodes(podLists: seq<Result<seq<Pod>>>) {
    forall i, j, p, q, c, d |
      && 0 <= i < |podLists| && p in PodsOf(podLists[i]) && HasStatus(p, c)
      && 0 <= j < |podLists| && q in PodsOf(podLists[j]) && HasStatus(q, d)
      && PodKey(p, c) == PodKey(q, d)
      :: i == j
  }

  lemma {:induction false} StatusEventsKeys(view: View, pod: Pod, statuses: seq<ContainerStatus>, e: Event) returns (c: ContainerStatus)
    requires e in StatusEvents(view, pod, statuses)
    ensures c in statuses && e.path == PodKey(pod, c)
  {
    var n := |statuses| - 1;
    if e in StatusEvents(view, pod, statuses[..n]) {
      c := StatusEventsKeys(view, pod, statuses[..n], e);
    } else {
      c := statuses[n];
      PartsAreUniform(view.parse, pod, c, view.visit(pod, c));
    }
  }

  lemma {:induction false} ScanEventsKeys(view: View, spec: Spec, pods: seq<Pod>, e: Event)
    returns (pod: Pod, c: ContainerStatus)
    requires forall p :: p in pods && p.deleting ==> PodIgnored(spec, p)
    requires e in ScanEvents(view, spec, pods, Blank(|pods|))
    ensures pod in pods && HasStatus(pod, c) && e.path == PodKey(pod, c)
  {
    var n := |pods| - 1;
    assert Blank(|pods|)[..n] == Blank(n);
    assert pods[n] in pods && forall p :: p in pods[..n] ==> p in pods;
    if e in ScanEvents(view, spec, pods[..n], Blank(n)) {
      pod, c := ScanEventsKeys(view, spec, pods[..n], e);
    } else {
      pod := pods[n];
      if e in StatusEvents(view, pod, pod.initStatuses) {
        c := StatusEventsKeys(view, pod, pod.initStatuses, e);
      } else {
        c := StatusEventsKeys(view, pod, pod.statuses, e);
      }
    }
  }

  lemma HubProgramsDisjoint(view: View, spec: Spec, podLists: seq<Result<seq<Pod>>>, faults: nat -> nat -> Faults)
    requires KeysDistinctAcrossNodes(podLists)
    requires forall i :: 0 <= i < |podLists| ==> NoneDeleting(view, spec, podLists[i])
    ensures Disjoint(HubPrograms(view, spec, podLists, faults))
  {
    var programs := HubPrograms(view, spec, podLists, faults);
    forall i, j, path | 0 <= i < |programs| && 0 <= j < |programs| && Owns(programs[i], path) && Owns(programs[j], path)
      ensures i == j
    {
      var a := OwnedEvent(NodeScan(view, spec, podLists[i]), faults(i), path);
      var b := OwnedEvent(NodeScan(view, spec, podLists[j]), faults(j), path);
      var p, c := ScanEventsKeys(view, spec, VisitedPods(view, spec, podLists[i]), a);
      var q, d := ScanEventsKeys(view, spec, VisitedPods(view, spec, podLists[j]), b);
      assert p in PodsOf(podLists[i]) && q in PodsOf(podLists[j]);
    }
  }

  lemma OwnedEvent(events: seq<Event>, faults: nat -> Faults, path: Path) returns (e: Event)
    requires Owns(Program(events, faults), path)
    ensures e in events && e.path == path
  {
    var program := Program(events, faults);
    var call :| call in program && call.event.path == path;
    var k :| 0 <= k < |program| && program[k] == call;
    e := events[k];
  }

  /** Schedule independence of the hub pod scan: with no pod being deleted and no file shared between nodes, every
      complete interleaving of the goroutines, including those that give up early, leaves what scanning the nodes in
      order leaves, whatever fails. */
  lemma HubScanScheduleIndependence(w: World, view: View, spec: Spec, podLists: seq<Result<seq<Pod>>>,
                                    faults: nat -> nat -> Faults, schedule: seq<nat>)
    requires KeysDistinctAcrossNodes(podLists)
    requires forall i :: 0 <= i < |podLists| ==> NoneDeleting(view, spec, podLists[i])
    requires AllDone(Execute(Start(w, HubPrograms(view, spec, podLists, faults)), schedule))
    ensures SameByPath(Execute(Start(w, HubPrograms(view, spec, podLists, faults)), schedule).world,
                       RunCalls(w, Joined(HubPrograms(view, spec, podLists, faults))))
  {
    HubProgramsDisjoint(view, spec, podLists, faults);
    ScheduleIndependence(w, HubPrograms(view, spec, podLists, faults), schedule);
  }

  function NodeHandler(view: View, spec: Spec): Result<seq<Pod>> -> seq<Event> {
    podList => HandledPods(view, spec, podList)
  }

  lemma JoinedIsHandler(view: View, spec: Spec, podLists: seq<Result<seq<Pod>>>, faults: nat -> nat -> Faults)
    requires Gate(view.api) == Success(false)
    requires forall i :: 0 <= i < |podLists| ==> NoneDeleting(view, spec, podLists[i])
    requires forall i, n :: faults(i)(n) == NO_FAULTS
    ensures Joined(HubPrograms(view, spec, podLists, faults)) == Faultless(FlatMap(NodeHandler(view, spec), podLists))
  {
    var programs := HubPrograms(view, spec, podLists, faults);
    forall i | 0 <= i < |podLists|
      ensures programs[i] == Faultless(NodeHandler(view, spec)(podLists[i]))
    {
      NodeScanRefinesHandler(view, spec, podLists[i]);
      ProgramFaultless(NodeScan(view, spec, podLists[i]), faults(i));
    }
    JoinedFaultless(NodeHandler(view, spec), podLists, programs);
  }

  /** When nothing fails either, every complete interleaving has the effect of the informer handler applied to the pods
      of the nodes in order. */
  lemma HubScanRefinesHandler(w: World, view: View, spec: Spec, podLists: seq<Result<seq<Pod>>>,
                              faults: nat -> nat -> Faults, schedule: seq<nat>)
    requires Gate(view.api) == Success(false) && KeysDistinctAcrossNodes(podLists)
    requires forall i :: 0 <= i < |podLists| ==> NoneDeleting(view, spec, podLists[i])
    requires forall i, n :: faults(i)(n) == NO_FAULTS
    ensures
      var s := Execute(Start(w, HubPrograms(view, spec, podLists, faults)), schedule);
      AllDone(s) ==> SameByPath(s.world, Run(w, FlatMap(NodeHandler(view, spec), podLists)))
  {
    if AllDone(Execute(Start(w, HubPrograms(view, spec, podLists, faults)), schedule)) {
      HubScanScheduleIndependence(w, view, spec, podLists, faults, schedule);
      JoinedIsHandler(view, spec, podLists, faults);
    }
  }

  /** Exactly when the schedule of a fault-free scan does not matter: no file gets events from two goroutines. */
  lemma HubScanIndependentExactly(view: View, spec: Spec, podLists: seq<Result<seq<Pod>>>, faults: nat -> nat -> Faults)
    requires forall i, n :: faults(i)(n) == NO_FAULTS
    ensures Independent(HubPrograms(view, spec, podLists, faults)) <==> NoSharedFile(view, spec, podLists)
  {
    var scans := seq(|podLists|, i requires 0 <= i < |podLists| => NodeScan(view, spec, podLists[i]));
    forall i | 0 <= i < |podLists|
      ensures HubPrograms(view, spec, podLists, faults)[i] == Faultless(scans[i])
    {
      ProgramFaultless(scans[i], faults(i));
    }
    assert HubPrograms(view, spec, podLists, faults) == FaultlessAll(scans);
    IndependentExactly(scans);
    forall i, path | 0 <= i < |podLists|
      ensures Owns(Faultless(scans[i]), path) <==> Alarms(view, spec, podLists[i], path)
    {
      OwnsFaultless(scans[i], path);
    }
  }

  /** The goroutine for these pods has an event for the file. */
  predicate Alarms(view: View, spec: Spec, podList: Result<seq<Pod>>, path: Path) {
    exists e :: e in NodeScan(view, spec, podList) && e.path == path
  }

  ghost predicate NoSharedFile(view: View, spec: Spec, podLists: seq<Result<seq<Pod>>>) {
    forall i, j, path
      | 0 <= i < |podLists| && 0 <= j < |podLists|
        && Alarms(view, spec, podLists[i], path) && Alarms(view, spec, podLists[j], path)
      :: i == j
  }

  lemma OwnsFaultless(events: seq<Event>, path: Path)
    ensures Owns(Faultless(events), path) <==> exists e :: e in events && e.path == path
  {
    if e :| e in events && e.path == path {
      var k :| 0 <= k < |events| && events[k] == e;
      assert Faultless(events)[k] in Faultless(events);
    }
  }

  /** A pod with one container whose image cannot be pulled. */
  function BrokenPod(name: string, namespace: string, nodeName: string, container: string): Pod {
    Pod(name, namespace, nodeName, false, [], [], [],
        [ContainerStatus(container, "", 0, State(false, Some("ErrImagePull"), None), None)])
  }

  lemma BrokenPodScan(view: View, spec: Spec, pod: Pod, name: string, container: string)
    requires pod == BrokenPod(name, pod.namespace, pod.nodeName, container) && Decide(view, spec, pod) == Handle
    ensures NodeScan(view, spec, Success([pod])) == [Event(PodKey(pod, pod.statuses[0]), Faulty)]
  {
    var c := pod.statuses[0];
    assert Visited(view, spec, ALWAYS, [pod]) == 1 + Visited(view, spec, ALWAYS, [pod][1..]);
    assert VisitedPods(view, spec, Success([pod])) == [pod];
    assert [pod][..0] == [] && [c][..0] == [];
    assert PodEvents(view.parse, pod, c, view.visit(pod, c)) == [Event(PodKey(pod, c), Faulty)];
    assert StatusEvents(view, pod, [c]) == StatusEvents(view, pod, []) + [Event(PodKey(pod, c), Faulty)];
    assert ScanEvents(view, spec, [pod], Blank(1)) == ScanEvents(view, spec, [], Blank(1)[..0]) + ContainerEvents(view, pod);
  }

  /** Files shared between nodes do occur, and then the scan can send an alert twice: container c of pod a-b and container
      b-c of pod a in one namespace have the same file, and when they fail on two nodes both goroutines can alert it. */
  lemma HubScanRaces(view: View, spec: Spec, namespace: string, node1: string, node2: string)
    requires Decide(view, spec, BrokenPod("a-b", namespace, node1, "c")) == Handle
    requires Decide(view, spec, BrokenPod("a", namespace, node2, "b-c")) == Handle
    ensures
      var p, q := BrokenPod("a-b", namespace, node1, "c"), BrokenPod("a", namespace, node2, "b-c");
      var programs := HubPrograms(view, spec, [Success([p]), Success([q])], i => n => NO_FAULTS);
      var s := Execute(Start(EMPTY, programs), [0, 1, 0, 1, 0, 1]);
      && PodKey(p, p.statuses[0]) == PodKey(q, q.statuses[0])
      && !Disjoint(programs)
      && AllDone(s)
      && History(s.world.log, PodKey(p, p.statuses[0])) == [Alert(true), Alert(true)]
      && History(RunCalls(EMPTY, Joined(programs)).log, PodKey(p, p.statuses[0])) == [Alert(true)]
  {
    var p := BrokenPod("a-b", namespace, node1, "c");
    BrokenPrograms(view, spec, namespace, node1, node2);
    TwoAlertsRace(PodKey(p, p.statuses[0]));
  }

  /** The goroutines of the two nodes have one alert each, for the same file. */
  lemma BrokenPrograms(view: View, spec: Spec, namespace: string, node1: string, node2: string)
    requires Decide(view, spec, BrokenPod("a-b", namespace, node1, "c")) == Handle
    requires Decide(view, spec, BrokenPod("a", namespace, node2, "b-c")) == Handle
    ensures
      var p, q := BrokenPod("a-b", namespace, node1, "c"), BrokenPod("a", namespace, node2, "b-c");
      var call := Call(Event(PodKey(p, p.statuses[0]), Faulty), NO_FAULTS);
      && PodKey(p, p.statuses[0]) == PodKey(q, q.statuses[0])
      && HubPrograms(view, spec, [Success([p]), Success([q])], i => n => NO_FAULTS) == [[call], [call]]
  {
    var p, q := BrokenPod("a-b", namespace, node1, "c"), BrokenPod("a", namespace, node2, "b-c");
    SharedKey(namespace, node1, node2);
    BrokenPodScan(view, spec, p, "a-b", "c");
    BrokenPodScan(view, spec, q, "a", "b-c");
    HubProgramsOfTwo(view, spec, Success([p]), Success([q]), i => n => NO_FAULTS);
    ProgramOfOne(Event(PodKey(p, p.statuses[0]), Faulty), n => NO_FAULTS);
  }

  lemma SharedKey(namespace: string, node1: string, node2: string)
    ensures
      var p, q := BrokenPod("a-b", namespace, node1, "c"), BrokenPod("a", namespace, node2, "b-c");
      PodKey(p, p.statuses[0]) == PodKey(q, q.statuses[0])
  {
    assert "." + "a-b" + "-" + "c" + "-" == "." + "a" + "-" + "b-c" + "-";
  }

  lemma HubProgramsOfTwo(view: View, spec: Spec, a: Result<seq<Pod>>, b: Result<seq<Pod>>, faults: nat -> nat -> Faults)
    ensures HubPrograms(view, spec, [a, b], faults) ==
            [Program(NodeScan(view, spec, a), faults(0)), Program(NodeScan(view, spec, b), faults(1))]
  {
  }

  lemma ProgramOfOne(e: Event, faults: nat -> Faults)
    requires faults(0) == NO_FAULTS
    ensures Program([e], faults) == [Call(e, NO_FAULTS)]
  {
  }
}
