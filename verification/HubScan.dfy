/** The hub pod scan as it runs: one goroutine for each node, whose guards, listings and file operations interleave. */
module HubScan {
  import opened Basics
  import opened Alerts
  import opened Cluster
  import opened Ignores
  import opened Goroutines
  import opened Pods
  import opened PodFiles
  import opened HubPods

  /** The events of the containers of one list. */
  method PlanStatuses(view: View, pod: Pod, statuses: seq<ContainerStatus>) returns (events: seq<Event>)
    ensures events == StatusEvents(view, pod, statuses)
  {
    events := [];
    for i := 0 to |statuses|
      invariant events == StatusEvents(view, pod, statuses[..i])
    {
      assert statuses[..i + 1][..i] == statuses[..i];
      events := events + PodEvents(view.parse, pod, statuses[i], view.visit(pod, statuses[i]));
    }
    assert statuses[..|statuses|] == statuses;
  }

  /** The recoveries of one sweep. */
  method PlanSweep(listing: seq<string>, pod: Pod) returns (events: seq<Event>)
    ensures events == SweepEvents(listing, pod)
  {
    events := [];
    for i := 0 to |listing|
      invariant events == SweepEvents(listing[..i], pod)
    {
      assert listing[..i + 1][..i] == listing[..i];
      if Contains(listing[i], pod.name) && Contains(listing[i], pod.namespace) {
        events := events + [Event(Path(AlertDir, listing[i]), Recovered)];
      }
    }
    assert listing[..|listing|] == listing;
  }

  /** What a goroutine decides when it comes to a pod: to give up, or to send these events. */
  method NextPod(ledger: Ledger, view: View, spec: Spec, pod: Pod, readable: Readable)
    returns (stop: bool, events: seq<Event>, ghost listing: seq<string>)
    requires EntriesHaveNames(spec.ignored, "pod", pod.namespace)
    ensures stop <==> Stops(view, spec, readable, pod)
    ensures !stop && pod.deleting && !PodIgnored(spec, pod) ==> Lists(listing, ledger.files)
    ensures !stop ==> events == PodScanEvents(view, spec, pod, listing)
  {
    listing := [];
    var decision := Consider(view, spec, pod);
    if decision == Skip {
      return false, [], [];
    } else if decision == GiveUp {
      return true, [], [];
    }
    if !pod.deleting {
      var initial := PlanStatuses(view, pod, pod.initStatuses);
      var others := PlanStatuses(view, pod, pod.statuses);
      return false, initial + others, [];
    }
    if !readable(pod) {
      return true, [], [];
    }
    var names := ledger.ReadDir();
    events := PlanSweep(names, pod);
    return false, events, names;
  }

  /** A scan: for each node the answer to the query for its pods, whether goroutine i can read the alert directory for a
      deleted pod, and what the n-th call of goroutine i meets. */
  datatype Scan = Scan(
    view: View,
    spec: Spec,
    podLists: seq<Result<seq<Pod>>>,
    readable: nat -> Readable,
    faults: nat -> nat -> Faults)
  {
    function PodsAt(i: nat): seq<Pod>
      requires i < |podLists|
    {
      PodsOf(podLists[i])
    }
  }

  /** The goroutine of one node: the calls it is at, the pods it has not come to yet, and how many calls it has begun. */
  datatype Worker = Worker(thread: Thread, pods: seq<Pod>, used: nat)

  predicate Finished(w: Worker) {
    Done(w.thread) && w.pods == []
  }

  function Threads(workers: seq<Worker>): (threads: seq<Thread>)
    ensures |threads| == |workers|
  {
    seq(|workers|, i requires 0 <= i < |workers| => workers[i].thread)
  }

  /** What the goroutines have read: one listing for each pod they have come to. */
  type Listings = seq<seq<seq<string>>>

  predicate ListingsFor(scan: Scan, listings: Listings) {
    |listings| == |scan.podLists| && forall i :: 0 <= i < |listings| ==> |listings[i]| <= |scan.PodsAt(i)|
  }

  /** The events and the calls of goroutine i, given what it has read. */
  function NodeEvents(scan: Scan, i: nat, read: seq<seq<string>>): seq<Event>
    requires i < |scan.podLists| && |read| <= |scan.PodsAt(i)|
  {
    ScanEvents(scan.view, scan.spec, scan.PodsAt(i)[..|read|], read)
  }

  function NodeProgram(scan: Scan, i: nat, read: seq<seq<string>>): seq<Call>
    requires i < |scan.podLists| && |read| <= |scan.PodsAt(i)|
  {
    Program(NodeEvents(scan, i, read), scan.faults(i))
  }

  function ScanPrograms(scan: Scan, listings: Listings): (programs: seq<seq<Call>>)
    requires ListingsFor(scan, listings)
    ensures |programs| == |scan.podLists|
  {
    seq(|scan.podLists|, i requires 0 <= i < |scan.podLists| => NodeProgram(scan, i, listings[i]))
  }

  /** A goroutine has come to as many pods as it has listings, and it goes on with the others or has given up. */
  predicate WorkerFits(scan: Scan, i: nat, read: seq<seq<string>>, w: Worker)
    requires i < |scan.podLists|
  {
    && |read| <= |scan.PodsAt(i)|
    && (w.pods == scan.PodsAt(i)[|read|..] || w.pods == [])
    && Visited(scan.view, scan.spec, scan.readable(i), scan.PodsAt(i)) ==
       |read| + Visited(scan.view, scan.spec, scan.readable(i), w.pods)
    && w.used == |NodeProgram(scan, i, read)|
    && (Done(w.thread) ==> w.thread.pc == Stat)
  }

  predicate MustRead(spec: Spec, pod: Pod) {
    pod.deleting && !PodIgnored(spec, pod)
  }

  /** After m steps of the schedule goroutine i has made its first c calls and is between two calls. */
  ghost predicate Between(w: World, programs: seq<seq<Call>>, schedule: seq<nat>, m: nat, i: nat, c: nat)
    requires i < |programs|
  {
    && m <= |schedule|
    && var t := Execute(Start(w, programs), schedule[..m]).threads[i];
       t.pc == Stat && c + |t.todo| == |programs[i]|
  }

  /** Goroutine i comes to its pod k after m steps of the schedule, when it has made all calls for the pods before and none
      for this one; for a deleted pod it then gets a listing of the alert directory as it is. */
  ghost predicate ComesTo(w: World, programs: seq<seq<Call>>, schedule: seq<nat>, scan: Scan, i: nat,
                          read: seq<seq<string>>, k: nat, m: nat)
    requires i < |scan.podLists| == |programs| && k < |read| <= |scan.PodsAt(i)|
  {
    && Between(w, programs, schedule, m, i, |NodeEvents(scan, i, read[..k])|)
    && (MustRead(scan.spec, scan.PodsAt(i)[k]) ==>
         Lists(read[k], Execute(Start(w, programs), schedule[..m]).world.files))
  }

  /** Goroutine i comes to its pods one after the other at these moments. */
  ghost predicate InOrder(w: World, programs: seq<seq<Call>>, schedule: seq<nat>, scan: Scan, i: nat,
                          read: seq<seq<string>>, moments: seq<nat>)
    requires i < |scan.podLists| == |programs| && |moments| == |read| <= |scan.PodsAt(i)|
  {
    && (forall k :: 0 <= k < |read| ==> ComesTo(w, programs, schedule, scan, i, read, k, moments[k]))
    && (forall k :: 0 < k < |read| ==> moments[k - 1] <= moments[k])
  }

  /** The goroutines are where this schedule takes the calls they have begun. */
  ghost predicate Tracks(w: World, programs: seq<seq<Call>>, schedule: seq<nat>, world: World, workers: seq<Worker>) {
    && |programs| == |workers|
    && Busy(Start(w, programs), schedule)
    && Execute(Start(w, programs), schedule) == System(world, Threads(workers))
  }

  /** A run of the goroutines: for each of them what it read and when it came to its pods, and the order of the steps. */
  datatype Trace = Trace(listings: Listings, moments: seq<seq<nat>>, schedule: seq<nat>)

  predicate TraceFor(scan: Scan, tr: Trace) {
    && ListingsFor(scan, tr.listings) && |tr.moments| == |tr.listings|
    && forall i :: 0 <= i < |tr.moments| ==> |tr.moments[i]| == |tr.listings[i]|
  }

  /** What holds whenever all goroutines are between two steps. */
  ghost predicate ScanInv(w: World, scan: Scan, tr: Trace, world: World, workers: seq<Worker>) {
    && TraceFor(scan, tr) && |workers| == |scan.podLists|
    && (forall i :: 0 <= i < |workers| ==> WorkerFits(scan, i, tr.listings[i], workers[i]))
    && Tracks(w, ScanPrograms(scan, tr.listings), tr.schedule, world, workers)
    && (forall i :: 0 <= i < |workers| ==>
         InOrder(w, ScanPrograms(scan, tr.listings), tr.schedule, scan, i, tr.listings[i], tr.moments[i]))
  }

  lemma MicroKeepsTrack(w: World, programs: seq<seq<Call>>, schedule: seq<nat>, world: World, workers: seq<Worker>, i: nat)
    requires Tracks(w, programs, schedule, world, workers) && i < |workers| && !Done(workers[i].thread)
    ensures
      var (world', t) := Micro(world, workers[i].thread);
      Tracks(w, programs, schedule + [i], world', workers[i := workers[i].(thread := t)])
  {
    var t := Micro(world, workers[i].thread).1;
    BusyStep(Start(w, programs), schedule, i);
    ExecuteStep(Start(w, programs), schedule, i);
    assert Threads(workers)[i := t] == Threads(workers[i := workers[i].(thread := t)]);
  }

  lemma FetchKeepsTrack(w: World, programs: seq<seq<Call>>, schedule: seq<nat>, world: World, workers: seq<Worker>, i: nat,
                        calls: seq<Call>, next: Worker)
    requires Tracks(w, programs, schedule, world, workers) && i < |workers|
    requires workers[i].thread == Thread([], Stat) && next.thread == Thread(calls, Stat)
    ensures Tracks(w, programs[i := programs[i] + calls], schedule, world, workers[i := next])
  {
    ExecuteLonger(w, programs, i, calls, schedule);
    assert [] + calls == calls;
    assert Threads(workers)[i := next.thread] == Threads(workers[i := next]);
  }

  lemma {:induction false} BusyPrefix(s: System, schedule: seq<nat>, m: nat)
    requires Busy(s, schedule) && m <= |schedule|
    ensures Busy(s, schedule[..m])
  {
    if m < |schedule| {
      BusyPrefix(s, schedule[..|schedule| - 1], m);
      assert schedule[..|schedule| - 1][..m] == schedule[..m];
    } else {
      assert schedule[..m] == schedule;
    }
  }

  lemma InOrderLater(w: World, programs: seq<seq<Call>>, schedule: seq<nat>, j: nat, scan: Scan, i: nat,
                     read: seq<seq<string>>, moments: seq<nat>)
    requires i < |scan.podLists| == |programs| && |moments| == |read| <= |scan.PodsAt(i)|
    requires InOrder(w, programs, schedule, scan, i, read, moments)
    ensures InOrder(w, programs, schedule + [j], scan, i, read, moments)
  {
    forall k | 0 <= k < |read|
      ensures ComesTo(w, programs, schedule + [j], scan, i, read, k, moments[k])
    {
      assert ComesTo(w, programs, schedule, scan, i, read, k, moments[k]);
      assert (schedule + [j])[..moments[k]] == schedule[..moments[k]];
    }
  }

  lemma BetweenLonger(w: World, programs: seq<seq<Call>>, schedule: seq<nat>, m: nat, i: nat, c: nat, j: nat,
                      calls: seq<Call>)
    requires i < |programs| && j < |programs| && Busy(Start(w, programs), schedule)
    requires Between(w, programs, schedule, m, i, c)
    ensures Between(w, programs[j := programs[j] + calls], schedule, m, i, c)
    ensures Execute(Start(w, programs[j := programs[j] + calls]), schedule[..m]).world ==
            Execute(Start(w, programs), schedule[..m]).world
  {
    BusyPrefix(Start(w, programs), schedule, m);
    ExecuteLonger(w, programs, j, calls, schedule[..m]);
  }

  /** Coming to a pod does not depend on the calls that some goroutine begins later. */
  lemma ComesToLonger(w: World, programs: seq<seq<Call>>, schedule: seq<nat>, j: nat, calls: seq<Call>, scan: Scan,
                      i: nat, read: seq<seq<string>>, k: nat, m: nat)
    requires i < |scan.podLists| == |programs| && k < |read| <= |scan.PodsAt(i)|
    requires j < |programs| && Busy(Start(w, programs), schedule)
    requires ComesTo(w, programs, schedule, scan, i, read, k, m)
    ensures ComesTo(w, programs[j := programs[j] + calls], schedule, scan, i, read, k, m)
  {
    BetweenLonger(w, programs, schedule, m, i, |NodeEvents(scan, i, read[..k])|, j, calls);
  }

  lemma InOrderLonger(w: World, programs: seq<seq<Call>>, schedule: seq<nat>, j: nat, calls: seq<Call>, scan: Scan,
                      i: nat, read: seq<seq<string>>, moments: seq<nat>)
    requires i < |scan.podLists| == |programs| && |moments| == |read| <= |scan.PodsAt(i)|
    requires InOrder(w, programs, schedule, scan, i, read, moments)
    requires j < |programs| && Busy(Start(w, programs), schedule)
    ensures InOrder(w, programs[j := programs[j] + calls], schedule, scan, i, read, moments)
  {
    forall k | 0 <= k < |read|
      ensures ComesTo(w, programs[j := programs[j] + calls], schedule, scan, i, read, k, moments[k])
    {
      ComesToLonger(w, programs, schedule, j, calls, scan, i, read, k, moments[k]);
    }
  }

  lemma ScanStarts(w: World, scan: Scan, tr: Trace, workers: seq<Worker>)
    requires tr.schedule == [] && |tr.listings| == |tr.moments| == |workers| == |scan.podLists|
    requires forall i :: 0 <= i < |workers| ==>
      tr.listings[i] == [] && tr.moments[i] == [] && workers[i] == Worker(Thread([], Stat), scan.PodsAt(i), 0)
    ensures ScanInv(w, scan, tr, w, workers)
  {
    var programs := ScanPrograms(scan, tr.listings);
    forall i | 0 <= i < |workers|
      ensures programs[i] == []
    {
      assert scan.PodsAt(i)[..0] == [];
    }
    assert Start(w, programs).threads == Threads(workers);
  }

  lemma ScanSteps(w: World, scan: Scan, tr: Trace, world: World, workers: seq<Worker>, i: nat)
    requires ScanInv(w, scan, tr, world, workers) && i < |workers| && !Done(workers[i].thread)
    ensures
      var (world', t) := Micro(world, workers[i].thread);
      ScanInv(w, scan, tr.(schedule := tr.schedule + [i]), world', workers[i := workers[i].(thread := t)])
  {
    var programs := ScanPrograms(scan, tr.listings);
    MicroKeepsTrack(w, programs, tr.schedule, world, workers, i);
    if Done(Micro(world, workers[i].thread).1) {
      MicroEndsAtStat(world, workers[i].thread);
    }
    forall j | 0 <= j < |workers|
      ensures InOrder(w, programs, tr.schedule + [i], scan, j, tr.listings[j], tr.moments[j])
    {
      InOrderLater(w, programs, tr.schedule, i, scan, j, tr.listings[j], tr.moments[j]);
    }
  }

  /** Goroutine i when it begins the calls for these events of its next pod. */
  function Begun(scan: Scan, i: nat, w: Worker, events: seq<Event>): Worker
    requires w.pods != []
  {
    Worker(Thread(Program(events, (n: nat) => scan.faults(i)(w.used + n)), Stat), w.pods[1..], w.used + |events|)
  }

  function Fetched(scan: Scan, i: nat, w: Worker, listing: seq<string>): Worker
    requires w.pods != []
  {
    Begun(scan, i, w, PodScanEvents(scan.view, scan.spec, w.pods[0], listing))
  }

  lemma ProgramGrows(a: seq<Event>, b: seq<Event>, faults: nat -> Faults)
    ensures Program(a + b, faults) == Program(a, faults) + Program(b, (n: nat) => faults(|a| + n))
  {
  }

  lemma NodeProgramGrows(scan: Scan, i: nat, read: seq<seq<string>>, w: Worker, listing: seq<string>)
    requires i < |scan.podLists| && |read| < |scan.PodsAt(i)|
    requires w.pods == scan.PodsAt(i)[|read|..] && w.used == |NodeEvents(scan, i, read)|
    ensures NodeProgram(scan, i, read + [listing]) ==
            NodeProgram(scan, i, read) + Fetched(scan, i, w, listing).thread.todo
  {
    var pods, k := scan.PodsAt(i), |read|;
    ScanGrows(scan.view, scan.spec, pods, k, read, listing);
    ProgramGrows(ScanEvents(scan.view, scan.spec, pods[..k], read),
                 PodScanEvents(scan.view, scan.spec, pods[k], listing), scan.faults(i));
  }

  lemma FetchedFits(scan: Scan, i: nat, read: seq<seq<string>>, w: Worker, listing: seq<string>)
    requires i < |scan.podLists| && WorkerFits(scan, i, read, w) && w.pods != []
    requires !Stops(scan.view, scan.spec, scan.readable(i), w.pods[0])
    ensures WorkerFits(scan, i, read + [listing], Fetched(scan, i, w, listing))
  {
    NodeProgramGrows(scan, i, read, w, listing);
    assert scan.PodsAt(i)[|read|..][1..] == scan.PodsAt(i)[|read| + 1..];
  }

  lemma ScanProgramsGrow(scan: Scan, listings: Listings, i: nat, w: Worker, listing: seq<string>)
    requires ListingsFor(scan, listings) && i < |scan.podLists| && WorkerFits(scan, i, listings[i], w) && w.pods != []
    ensures ListingsFor(scan, listings[i := listings[i] + [listing]])
    ensures
      var programs := ScanPrograms(scan, listings);
      ScanPrograms(scan, listings[i := listings[i] + [listing]]) ==
      programs[i := programs[i] + Fetched(scan, i, w, listing).thread.todo]
  {
    NodeProgramGrows(scan, i, listings[i], w, listing);
  }

  /** The trace when goroutine i has come to its next pod. */
  function Came(tr: Trace, i: nat, listing: seq<string>): Trace
    requires i < |tr.listings| == |tr.moments|
  {
    Trace(tr.listings[i := tr.listings[i] + [listing]], tr.moments[i := tr.moments[i] + [|tr.schedule|]], tr.schedule)
  }

  lemma InOrderNow(w: World, programs: seq<seq<Call>>, schedule: seq<nat>, scan: Scan, i: nat, read: seq<seq<string>>,
                   moments: seq<nat>, listing: seq<string>)
    requires i < |scan.podLists| == |programs| && |moments| == |read| < |scan.PodsAt(i)|
    requires InOrder(w, programs, schedule, scan, i, read, moments)
    requires ComesTo(w, programs, schedule, scan, i, read + [listing], |read|, |schedule|)
    ensures InOrder(w, programs, schedule, scan, i, read + [listing], moments + [|schedule|])
  {
    forall k | 0 <= k <= |read|
      ensures ComesTo(w, programs, schedule, scan, i, read + [listing], k, (moments + [|schedule|])[k])
    {
      if k < |read| {
        assert ComesTo(w, programs, schedule, scan, i, read, k, moments[k]);
        assert (read + [listing])[..k] == read[..k];
      }
    }
  }

  lemma {:induction false} BetweenNow(w: World, programs: seq<seq<Call>>, schedule: seq<nat>, i: nat, c: nat, t: Thread)
    requires i < |programs| && Execute(Start(w, programs), schedule).threads[i] == t
    requires t.pc == Stat && |programs[i]| == c + |t.todo|
    ensures Between(w, programs, schedule, |schedule|, i, c)
  {
    assert schedule[..|schedule|] == schedule;
  }

  lemma {:induction false} ComesNow(w: World, programs: seq<seq<Call>>, schedule: seq<nat>, world: World, scan: Scan, i: nat,
                 read: seq<seq<string>>, k: nat)
    requires i < |scan.podLists| == |programs| && k < |read| <= |scan.PodsAt(i)|
    requires Execute(Start(w, programs), schedule).world == world
    requires Between(w, programs, schedule, |schedule|, i, |NodeEvents(scan, i, read[..k])|)
    requires MustRead(scan.spec, scan.PodsAt(i)[k]) ==> Lists(read[k], world.files)
    ensures ComesTo(w, programs, schedule, scan, i, read, k, |schedule|)
  {
    assert schedule[..|schedule|] == schedule;
  }

  lemma FrontOf(read: seq<seq<string>>, listing: seq<string>)
    ensures (read + [listing])[..|read|] == read
  {
  }

  lemma FetchInOrder(w: World, scan: Scan, tr: Trace, world: World, workers: seq<Worker>, i: nat, listing: seq<string>, j: nat)
    requires ScanInv(w, scan, tr, world, workers)
    requires i < |workers| && Done(workers[i].thread) && workers[i].pods != [] && j < |workers|
    requires MustRead(scan.spec, workers[i].pods[0]) ==> Lists(listing, world.files)
    ensures
      var next, tr' := Fetched(scan, i, workers[i], listing), Came(tr, i, listing);
      && TraceFor(scan, tr')
      && Tracks(w, ScanPrograms(scan, tr'.listings), tr.schedule, world, workers[i := next])
      && InOrder(w, ScanPrograms(scan, tr'.listings), tr.schedule, scan, j, tr'.listings[j], tr'.moments[j])
  {
    var programs, next := ScanPrograms(scan, tr.listings), Fetched(scan, i, workers[i], listing);
    var calls, read := next.thread.todo, tr.listings[i];
    var programs' := programs[i := programs[i] + calls];
    ScanProgramsGrow(scan, tr.listings, i, workers[i], listing);
    FetchKeepsTrack(w, programs, tr.schedule, world, workers, i, calls, next);
    InOrderLonger(w, programs, tr.schedule, i, calls, scan, j, tr.listings[j], tr.moments[j]);
    if j == i {
      FrontOf(read, listing);
      BetweenNow(w, programs', tr.schedule, i, |programs[i]|, next.thread);
      ComesNow(w, programs', tr.schedule, world, scan, i, read + [listing], |read|);
      InOrderNow(w, programs', tr.schedule, scan, i, read, tr.moments[i], listing);
    }
  }

  lemma ScanFetches(w: World, scan: Scan, tr: Trace, world: World, workers: seq<Worker>, i: nat, listing: seq<string>)
    requires ScanInv(w, scan, tr, world, workers)
    requires i < |workers| && Done(workers[i].thread) && workers[i].pods != []
    requires !Stops(scan.view, scan.spec, scan.readable(i), workers[i].pods[0])
    requires MustRead(scan.spec, workers[i].pods[0]) ==> Lists(listing, world.files)
    ensures ScanInv(w, scan, Came(tr, i, listing), world, workers[i := Fetched(scan, i, workers[i], listing)])
  {
    FetchedFits(scan, i, tr.listings[i], workers[i], listing);
    forall j | 0 <= j < |workers|
      ensures
        var next, tr' := Fetched(scan, i, workers[i], listing), Came(tr, i, listing);
        && TraceFor(scan, tr')
        && Tracks(w, ScanPrograms(scan, tr'.listings), tr.schedule, world, workers[i := next])
        && InOrder(w, ScanPrograms(scan, tr'.listings), tr.schedule, scan, j, tr'.listings[j], tr'.moments[j])
    {
      FetchInOrder(w, scan, tr, world, workers, i, listing, j);
    }
    FetchInOrder(w, scan, tr, world, workers, i, listing, i);
  }

  lemma ScanGivesUp(w: World, scan: Scan, tr: Trace, world: World, workers: seq<Worker>, i: nat)
    requires ScanInv(w, scan, tr, world, workers) && i < |workers|
    requires workers[i].pods != [] && Stops(scan.view, scan.spec, scan.readable(i), workers[i].pods[0])
    ensures ScanInv(w, scan, tr, world, workers[i := workers[i].(pods := [])])
  {
    assert Threads(workers[i := workers[i].(pods := [])]) == Threads(workers);
  }

  /** How many pods the goroutines have not come to yet. */
  function Ahead(workers: seq<Worker>): nat {
    if workers == [] then 0 else Ahead(workers[..|workers| - 1]) + |workers[|workers| - 1].pods|
  }

  lemma {:induction false} AheadUpdate(workers: seq<Worker>, i: nat, w: Worker)
    requires i < |workers|
    ensures Ahead(workers[i := w]) + |workers[i].pods| == Ahead(workers) + |w.pods|
  {
    var n := |workers| - 1;
    if i < n {
      AheadUpdate(workers[..n], i, w);
      assert workers[i := w][..n] == workers[..n][i := w];
    } else {
      assert workers[i := w][..n] == workers[..n];
    }
  }

  /** A goroutine takes one step of its current call. */
  method StepWorker(ledger: Ledger, scan: Scan, workers: seq<Worker>, i: nat, ghost w: World, ghost tr: Trace)
    returns (next: Worker)
    requires ScanInv(w, scan, tr, ledger.Now().world, workers)
    requires i < |workers| && !Done(workers[i].thread)
    modifies ledger
    ensures ledger.calls == old(ledger.calls)
    ensures ScanInv(w, scan, tr.(schedule := tr.schedule + [i]), ledger.Now().world, workers[i := next])
    ensures Ahead(workers[i := next]) == Ahead(workers) && Work(Threads(workers[i := next])) < Work(Threads(workers))
  {
    ScanSteps(w, scan, tr, ledger.Now().world, workers, i);
    WorkDecreases(ledger.Now().world, Threads(workers), i);
    var t := StepGoroutine(ledger, workers[i].thread);
    next := workers[i].(thread := t);
    AheadUpdate(workers, i, next);
    assert Threads(workers[i := next]) == Threads(workers)[i := t];
  }

  /** A goroutine that has made its calls so far comes to its next pod. */
  method FetchPod(ledger: Ledger, scan: Scan, workers: seq<Worker>, i: nat, ghost w: World, ghost tr: Trace)
    returns (next: Worker, ghost tr': Trace)
    requires ScanInv(w, scan, tr, ledger.Now().world, workers)
    requires i < |workers| && Done(workers[i].thread) && workers[i].pods != []
    requires EntriesHaveNames(scan.spec.ignored, "pod", workers[i].pods[0].namespace)
    ensures ScanInv(w, scan, tr', ledger.Now().world, workers[i := next])
    ensures Ahead(workers[i := next]) < Ahead(workers)
  {
    var stop, events, listing := NextPod(ledger, scan.view, scan.spec, workers[i].pods[0], scan.readable(i));
    if stop {
      ScanGivesUp(w, scan, tr, ledger.Now().world, workers, i);
      next := workers[i].(pods := []);
      tr' := tr;
    } else {
      ScanFetches(w, scan, tr, ledger.Now().world, workers, i, listing);
      next := Begun(scan, i, workers[i], events);
      tr' := Came(tr, i, listing);
    }
    AheadUpdate(workers, i, next);
  }

  /** A complete run of the goroutines from w to w': each comes in order to the pods before the first one at which it
      gives up, makes its calls for one pod before it comes to the next, and sees the alert directory as it is when it
      comes to a deleted pod; the steps of the calls interleave as scheduled. */
  ghost predicate CompleteScan(w: World, scan: Scan, tr: Trace, w': World) {
    && TraceFor(scan, tr)
    && (forall i :: 0 <= i < |tr.listings| ==>
         && |tr.listings[i]| == Visited(scan.view, scan.spec, scan.readable(i), scan.PodsAt(i))
         && InOrder(w, ScanPrograms(scan, tr.listings), tr.schedule, scan, i, tr.listings[i], tr.moments[i]))
    && var s := Execute(Start(w, ScanPrograms(scan, tr.listings)), tr.schedule);
       AllDone(s) && w' == s.world
  }

  lemma FinishedIsComplete(w: World, scan: Scan, tr: Trace, world: World, workers: seq<Worker>)
    requires ScanInv(w, scan, tr, world, workers)
    requires forall i :: 0 <= i < |workers| ==> Finished(workers[i])
    ensures CompleteScan(w, scan, tr, world)
  {
    forall i | 0 <= i < |workers|
      ensures |tr.listings[i]| == Visited(scan.view, scan.spec, scan.readable(i), scan.PodsAt(i))
    {
      assert WorkerFits(scan, i, tr.listings[i], workers[i]);
    }
  }

  /** All goroutines of the scan, with a free scheduler at every step. */
  method RunWorkers(ledger: Ledger, scan: Scan) returns (ghost tr: Trace)
    requires forall i :: 0 <= i < |scan.podLists| ==>
      NamesReadable(scan.view, scan.spec, scan.readable(i), scan.PodsAt(i))
    modifies ledger
    ensures ledger.calls == old(ledger.calls)
    ensures CompleteScan(old(ledger.Now()).world, scan, tr, ledger.Now().world)
  {
    ghost var w := ledger.Now().world;
    var n := |scan.podLists|;
    var workers := seq(n, i requires 0 <= i < n => Worker(Thread([], Stat), scan.PodsAt(i), 0));
    tr := Trace(seq(n, i => []), seq(n, i => []), []);
    ScanStarts(w, scan, tr, workers);
    while exists i :: 0 <= i < |workers| && !Finished(workers[i])
      invariant ScanInv(w, scan, tr, ledger.Now().world, workers)
      invariant ledger.calls == old(ledger.calls)
      decreases Ahead(workers), Work(Threads(workers))
    {
      var i: nat :| i < |workers| && !Finished(workers[i]);
      var next;
      if !Done(workers[i].thread) {
        next := StepWorker(ledger, scan, workers, i, w, tr);
        tr := tr.(schedule := tr.schedule + [i]);
      } else {
        assert workers[i].pods[0] == scan.PodsAt(i)[|tr.listings[i]|];
        next, tr := FetchPod(ledger, scan, workers, i, w, tr);
      }
      workers := workers[i := next];
    }
    FinishedIsComplete(w, scan, tr, ledger.Now().world, workers);
  }

  /** When no goroutine has calls for the path of another, the run ends as the goroutines one after the other, each with
      the listings that it has read. */
  lemma CompleteScanInOrder(w: World, scan: Scan, tr: Trace, w': World)
    requires CompleteScan(w, scan, tr, w') && Disjoint(ScanPrograms(scan, tr.listings))
    ensures SameByPath(w', RunCalls(w, Joined(ScanPrograms(scan, tr.listings))))
  {
    ScheduleIndependence(w, ScanPrograms(scan, tr.listings), tr.schedule);
  }

  /** A file that goroutine i can touch: for a pod that it has come to and that is not ignored, the file of a container
      of a live pod, or a file read for a deleted pod whose name mentions the pod. */
  ghost predicate Reaches(scan: Scan, i: nat, read: seq<seq<string>>, path: Path)
    requires i < |scan.podLists| && |read| <= |scan.PodsAt(i)|
  {
    exists k :: 0 <= k < |read| && PodReaches(scan.spec, scan.PodsAt(i)[k], read[k], path)
  }

  ghost predicate PodReaches(spec: Spec, pod: Pod, listing: seq<string>, path: Path) {
    && !PodIgnored(spec, pod)
    && if pod.deleting then path.dir == AlertDir && path.name in listing && Mentions(path.name, pod)
       else exists c :: HasStatus(pod, c) && path == PodKey(pod, c)
  }

  lemma {:induction false} SweepReaches(listing: seq<string>, pod: Pod, e: Event)
    requires e in SweepEvents(listing, pod)
    ensures e.path.dir == AlertDir && e.path.name in listing && Mentions(e.path.name, pod) && e.verdict == Recovered
  {
    var n := |listing| - 1;
    if e in SweepEvents(listing[..n], pod) {
      SweepReaches(listing[..n], pod, e);
    }
  }

  lemma PodScanReaches(view: View, spec: Spec, pod: Pod, listing: seq<string>, e: Event)
    requires e in PodScanEvents(view, spec, pod, listing)
    ensures PodReaches(spec, pod, listing, e.path)
    ensures e.verdict == Faulty ==> !pod.deleting
  {
    if pod.deleting {
      SweepReaches(listing, pod, e);
    } else {
      var c: ContainerStatus;
      if e in StatusEvents(view, pod, pod.initStatuses) {
        c := StatusEventsKeys(view, pod, pod.initStatuses, e);
      } else {
        c := StatusEventsKeys(view, pod, pod.statuses, e);
      }
      assert HasStatus(pod, c);
    }
  }

  lemma {:induction false} ScanReaches(view: View, spec: Spec, pods: seq<Pod>, read: seq<seq<string>>, e: Event) returns (k: nat)
    requires |pods| == |read| && e in ScanEvents(view, spec, pods, read)
    ensures k < |pods| && PodReaches(spec, pods[k], read[k], e.path)
    ensures e.verdict == Faulty ==> !pods[k].deleting
  {
    var n := |pods| - 1;
    if e in ScanEvents(view, spec, pods[..n], read[..n]) {
      k := ScanReaches(view, spec, pods[..n], read[..n], e);
    } else {
      k := n;
      PodScanReaches(view, spec, pods[n], read[n], e);
    }
  }

  /** No file is within reach of two goroutines. */
  ghost predicate Apart(scan: Scan, listings: Listings)
    requires ListingsFor(scan, listings)
  {
    forall i, j, path
      | 0 <= i < |listings| && 0 <= j < |listings| && Reaches(scan, i, listings[i], path) && Reaches(scan, j, listings[j], path)
      :: i == j
  }

  lemma EventReaches(scan: Scan, i: nat, read: seq<seq<string>>, e: Event)
    requires i < |scan.podLists| && |read| <= |scan.PodsAt(i)|
    requires e in NodeEvents(scan, i, read)
    ensures Reaches(scan, i, read, e.path)
  {
    var k := ScanReaches(scan.view, scan.spec, scan.PodsAt(i)[..|read|], read, e);
    assert scan.PodsAt(i)[k] == scan.PodsAt(i)[..|read|][k];
  }

  lemma ApartIsDisjoint(scan: Scan, listings: Listings)
    requires ListingsFor(scan, listings) && Apart(scan, listings)
    ensures Disjoint(ScanPrograms(scan, listings))
  {
    var programs := ScanPrograms(scan, listings);
    forall i, j, path | 0 <= i < |programs| && 0 <= j < |programs| && Owns(programs[i], path) && Owns(programs[j], path)
      ensures i == j
    {
      var a := OwnedEvent(NodeEvents(scan, i, listings[i]), scan.faults(i), path);
      var b := OwnedEvent(NodeEvents(scan, j, listings[j]), scan.faults(j), path);
      EventReaches(scan, i, listings[i], a);
      EventReaches(scan, j, listings[j], b);
    }
  }

  /** Schedule independence with deletions: when no file is within reach of two goroutines, every complete run, whatever
      fails and whoever gives up, ends as the goroutines one after the other, each with what it has read. */
  lemma ApartScanInOrder(w: World, scan: Scan, tr: Trace, w': World)
    requires CompleteScan(w, scan, tr, w') && Apart(scan, tr.listings)
    ensures SameByPath(w', RunCalls(w, Joined(ScanPrograms(scan, tr.listings))))
  {
    ApartIsDisjoint(scan, tr.listings);
    CompleteScanInOrder(w, scan, tr, w');
  }

  lemma NothingDeletedProgram(scan: Scan, i: nat, read: seq<seq<string>>)
    requires i < |scan.podLists| && NoneDeleting(scan.view, scan.spec, scan.podLists[i])
    requires |read| == Visited(scan.view, scan.spec, scan.readable(i), scan.PodsAt(i))
    ensures NodeProgram(scan, i, read) == Program(NodeScan(scan.view, scan.spec, scan.podLists[i]), scan.faults(i))
  {
    var pods := VisitedPods(scan.view, scan.spec, scan.podLists[i]);
    VisitedUnread(scan.view, scan.spec, scan.readable(i), scan.podLists[i]);
    ListingsIrrelevant(scan.view, scan.spec, pods, read, Blank(|pods|));
  }

  ghost predicate NothingDeleted(scan: Scan) {
    forall i :: 0 <= i < |scan.podLists| ==> NoneDeleting(scan.view, scan.spec, scan.podLists[i])
  }

  /** Without deletions and without files shared between nodes, the run ends as scanning the nodes in order. */
  lemma ScanIsHubPrograms(w: World, scan: Scan, tr: Trace, w': World)
    requires CompleteScan(w, scan, tr, w') && NothingDeleted(scan) && KeysDistinctAcrossNodes(scan.podLists)
    ensures SameByPath(w', RunCalls(w, Joined(HubPrograms(scan.view, scan.spec, scan.podLists, scan.faults))))
  {
    forall i | 0 <= i < |tr.listings|
      ensures NodeProgram(scan, i, tr.listings[i]) ==
              Program(NodeScan(scan.view, scan.spec, scan.podLists[i]), scan.faults(i))
    {
      NothingDeletedProgram(scan, i, tr.listings[i]);
    }
    assert ScanPrograms(scan, tr.listings) == HubPrograms(scan.view, scan.spec, scan.podLists, scan.faults);
    HubProgramsDisjoint(scan.view, scan.spec, scan.podLists, scan.faults);
    CompleteScanInOrder(w, scan, tr, w');
  }

  /** Whether the hub scan starts its goroutines and mails are on. */
  predicate Active(view: View, spec: Spec, nodeList: Result<seq<Result<seq<Pod>>>>) {
    Gate(view.api) == Success(false) && nodeList.Success? && spec.suspendEmailAlert == Some(false)
  }

  /** The hub scan. nodeList answers, for each node, the query for its pods. */
  method OnPodUpdateHub(ledger: Ledger, view: View, spec: Spec, nodeList: Result<seq<Result<seq<Pod>>>>,
                        readable: nat -> Readable, faults: nat -> nat -> Faults) returns (ghost tr: Trace)
    requires SelectorsPresent(view.api)
    requires Gate(view.api) == Success(false) && nodeList.Success? ==>
      forall i :: 0 <= i < |nodeList.value| ==> NamesReadable(view, spec, readable(i), PodsOf(nodeList.value[i]))
    modifies ledger
    ensures ledger.calls == old(ledger.calls)
    ensures Gate(view.api) != Success(false) || nodeList.Failure? || spec.suspendEmailAlert != Some(false) ==>
      ledger.Now() == old(ledger.Now())
    ensures !Active(view, spec, nodeList) ==> ledger.Now() == old(ledger.Now())
    ensures Gate(view.api) == Success(false) && nodeList.Success? && spec.suspendEmailAlert == Some(false) ==>
      CompleteScan(old(ledger.Now()).world, Scan(view, spec, nodeList.value, readable, faults), tr, ledger.Now().world)
    ensures
      Active(view, spec, nodeList) && KeysDistinctAcrossNodes(nodeList.value) &&
      NothingDeleted(Scan(view, spec, nodeList.value, readable, faults)) ==>
        SameByPath(ledger.Now().world,
                   RunCalls(old(ledger.Now()).world, Joined(HubPrograms(view, spec, nodeList.value, faults))))
  {
    tr := Trace([], [], []);
    var mcp := CheckMCPINProgress(view.api);
    if mcp.Failure? || mcp.value {
      return;
    }
    if nodeList.Failure? || spec.suspendEmailAlert != Some(false) {
      return;
    }
    ghost var w := ledger.Now().world;
    var scan := Scan(view, spec, nodeList.value, readable, faults);
    tr := RunWorkers(ledger, scan);
    if KeysDistinctAcrossNodes(nodeList.value) && NothingDeleted(scan) {
      ScanIsHubPrograms(w, scan, tr, ledger.Now().world);
    }
  }
}
