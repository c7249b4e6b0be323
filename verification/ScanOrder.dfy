/** The hub pod scan ends the same under every schedule, deletions included. */
module ScanOrder {
  import opened Alerts
  import opened Goroutines
  import opened Pods
  import opened PodFiles
  import opened HubPods
  import opened HubScan
  import opened Solo
  import opened Histories
  import opened Replays

  /** A file that the scan could touch for this pod, whatever the alert directory holds. */
  ghost predicate PodCanReach(spec: Spec, pod: Pod, path: Path) {
    && !PodIgnored(spec, pod)
    && if pod.deleting then path.dir == AlertDir && Mentions(path.name, pod)
       else exists c :: HasStatus(pod, c) && path == PodKey(pod, c)
  }

  /** The pods that goroutine i handles. */
  function HandledAt(scan: Scan, i: nat): seq<Pod>
    requires i < |scan.podLists|
  {
    scan.PodsAt(i)[..Visited(scan.view, scan.spec, scan.readable(i), scan.PodsAt(i))]
  }

  ghost predicate CanReach(scan: Scan, i: nat, path: Path)
    requires i < |scan.podLists|
  {
    exists pod :: pod in HandledAt(scan, i) && PodCanReach(scan.spec, pod, path)
  }

  /** The file of a container of a live pod that some goroutine handles. */
  ghost predicate ContainerFile(scan: Scan, path: Path) {
    exists i, pod :: 0 <= i < |scan.podLists| && pod in HandledAt(scan, i) && !pod.deleting && PodCanReach(scan.spec, pod, path)
  }

  /** No file that is there before the scan, or can come into being in it, can be reached by two goroutines. */
  ghost predicate ApartFrom(w: World, scan: Scan) {
    forall i, j, path
      | 0 <= i < |scan.podLists| && 0 <= j < |scan.podLists| && (path in w.files || ContainerFile(scan, path))
        && CanReach(scan, i, path) && CanReach(scan, j, path)
      :: i == j
  }

  lemma EventCanReach(scan: Scan, i: nat, read: seq<seq<string>>, e: Event) returns (k: nat)
    requires i < |scan.podLists| && |read| == |HandledAt(scan, i)| && e in NodeEvents(scan, i, read)
    ensures k < |read| && PodReaches(scan.spec, HandledAt(scan, i)[k], read[k], e.path)
    ensures CanReach(scan, i, e.path)
    ensures e.verdict == Faulty ==> ContainerFile(scan, e.path)
  {
    k := ScanReaches(scan.view, scan.spec, HandledAt(scan, i), read, e);
    var pod := HandledAt(scan, i)[k];
    assert pod in HandledAt(scan, i) && PodCanReach(scan.spec, pod, e.path);
  }

  /** What a goroutine reads was there before the scan, or belongs to a container of a live pod. */
  lemma ListedIsKnown(w: World, scan: Scan, tr: Trace, w': World, i: nat, k: nat, name: string)
    requires CompleteScan(w, scan, tr, w') && i < |scan.podLists| && k < |tr.listings[i]|
    requires MustRead(scan.spec, scan.PodsAt(i)[k]) && name in tr.listings[i][k]
    ensures Path(AlertDir, name) in w.files || ContainerFile(scan, Path(AlertDir, name))
  {
    var path, programs := Path(AlertDir, name), ScanPrograms(scan, tr.listings);
    assert ComesTo(w, programs, tr.schedule, scan, i, tr.listings[i], k, tr.moments[i][k]);
    FilesComeFromAlerts(w, programs, tr.schedule[..tr.moments[i][k]], path);
    if path !in w.files {
      var j, c: Call :| 0 <= j < |programs| && c in programs[j] && c.event == Event(path, Faulty);
      FaultyIsContainer(scan, j, tr.listings[j], c);
    }
  }

  lemma FaultyIsContainer(scan: Scan, i: nat, read: seq<seq<string>>, c: Call)
    requires i < |scan.podLists| && |read| == |HandledAt(scan, i)|
    requires c in NodeProgram(scan, i, read) && c.event.verdict == Faulty
    ensures ContainerFile(scan, c.event.path)
  {
    var program := NodeProgram(scan, i, read);
    var m :| 0 <= m < |program| && program[m] == c;
    assert NodeEvents(scan, i, read)[m] == c.event;
    var k := EventCanReach(scan, i, read, c.event);
  }

  /** A goroutine that has calls for a path can reach it, and the path was there or can come into being. */
  lemma OwnerCanReach(w: World, scan: Scan, tr: Trace, w': World, i: nat, path: Path)
    requires CompleteScan(w, scan, tr, w') && i < |scan.podLists|
    requires Owns(ScanPrograms(scan, tr.listings)[i], path)
    ensures CanReach(scan, i, path) && (path in w.files || ContainerFile(scan, path))
  {
    var e := OwnedEvent(NodeEvents(scan, i, tr.listings[i]), scan.faults(i), path);
    var k := EventCanReach(scan, i, tr.listings[i], e);
    var pod := HandledAt(scan, i)[k];
    assert pod == scan.PodsAt(i)[k] && pod in HandledAt(scan, i);
    if pod.deleting {
      ListedIsKnown(w, scan, tr, w', i, k, path.name);
    } else {
      assert PodCanReach(scan.spec, pod, path);
    }
  }

  lemma ApartFromIsDisjoint(w: World, scan: Scan, tr: Trace, w': World)
    requires CompleteScan(w, scan, tr, w') && ApartFrom(w, scan)
    ensures Disjoint(ScanPrograms(scan, tr.listings))
  {
    var programs := ScanPrograms(scan, tr.listings);
    forall i, j, path | 0 <= i < |programs| && 0 <= j < |programs| && Owns(programs[i], path) && Owns(programs[j], path)
      ensures i == j
    {
      OwnerCanReach(w, scan, tr, w', i, path);
      OwnerCanReach(w, scan, tr, w', j, path);
    }
  }

  lemma ListingsFront(read: seq<seq<string>>, k: nat)
    requires k < |read|
    ensures read[..k + 1] == read[..k] + [read[k]]
  {
  }

  lemma EventsGrow(scan: Scan, i: nat, read: seq<seq<string>>, k: nat)
    requires i < |scan.podLists| && k < |read| <= |scan.PodsAt(i)|
    ensures NodeEvents(scan, i, read[..k + 1]) ==
            NodeEvents(scan, i, read[..k]) + PodScanEvents(scan.view, scan.spec, scan.PodsAt(i)[k], read[k])
  {
    ListingsFront(read, k);
    ScanGrows(scan.view, scan.spec, scan.PodsAt(i), k, read[..k], read[k]);
  }

  lemma {:induction false} Chain(es: seq<seq<Event>>, k: nat, m: nat)
    requires k <= m < |es| && forall n :: 0 <= n < |es| - 1 ==> es[n] <= es[n + 1]
    ensures es[k] <= es[m]
    decreases m
  {
    if k < m {
      Chain(es, k, m - 1);
      assert es[m - 1] <= es[m - 1 + 1];
    }
  }

  lemma EventsExtend(scan: Scan, i: nat, read: seq<seq<string>>, k: nat)
    requires i < |scan.podLists| && k < |read| <= |scan.PodsAt(i)|
    ensures NodeEvents(scan, i, read[..k]) <= NodeEvents(scan, i, read[..k + 1])
  {
    EventsGrow(scan, i, read, k);
  }

  /** What a goroutine has sent when it comes to pod k is the front of what it sends in all. */
  lemma EventsFront(scan: Scan, i: nat, read: seq<seq<string>>, k: nat)
    requires i < |scan.podLists| && |read| <= |scan.PodsAt(i)| && k <= |read|
    ensures NodeEvents(scan, i, read[..k]) <= NodeEvents(scan, i, read)
  {
    var es := seq(|read| + 1, n requires 0 <= n <= |read| => NodeEvents(scan, i, read[..n]));
    forall n | 0 <= n < |es| - 1
      ensures es[n] <= es[n + 1]
    {
      EventsExtend(scan, i, read, n);
    }
    Chain(es, k, |read|);
    assert read[..|read|] == read;
  }

  lemma ProgramFront(a: seq<Event>, b: seq<Event>, faults: nat -> Faults)
    requires a <= b
    ensures Program(b, faults)[..|a|] == Program(a, faults)
  {
  }

  /** The world after what goroutine i does alone for its first k pods, with these listings. */
  function Front(w: World, scan: Scan, i: nat, read: seq<seq<string>>, k: nat): World
    requires i < |scan.podLists| && k <= |read| <= |scan.PodsAt(i)|
  {
    RunCalls(w, NodeProgram(scan, i, read[..k]))
  }

  lemma FrontStarts(w: World, scan: Scan, i: nat, read: seq<seq<string>>)
    requires i < |scan.podLists| && |read| <= |scan.PodsAt(i)|
    ensures Front(w, scan, i, read, 0) == w
  {
    assert read[..0] == [];
  }

  /** When goroutine i comes to pod k, a file that only it touches is as its own calls so far leave it. */
  lemma FrontHolds(w: World, scan: Scan, tr: Trace, w': World, i: nat, k: nat, path: Path)
    requires CompleteScan(w, scan, tr, w') && Disjoint(ScanPrograms(scan, tr.listings))
    requires i < |scan.podLists| && k < |tr.listings[i]| && Private(ScanPrograms(scan, tr.listings), i, path)
    ensures Agree(Execute(Start(w, ScanPrograms(scan, tr.listings)), tr.schedule[..tr.moments[i][k]]).world,
                  Front(w, scan, i, tr.listings[i], k), path)
  {
    var programs, read := ScanPrograms(scan, tr.listings), tr.listings[i];
    assert ComesTo(w, programs, tr.schedule, scan, i, read, k, tr.moments[i][k]);
    EventsFront(scan, i, read, k);
    ProgramFront(NodeEvents(scan, i, read[..k]), NodeEvents(scan, i, read), scan.faults(i));
    PrivateBetween(w, programs, i, tr.schedule[..tr.moments[i][k]], |NodeEvents(scan, i, read[..k])|, path);
  }

  ghost predicate NoneFails(scan: Scan) {
    forall i, n :: scan.faults(i)(n) == NO_FAULTS
  }

  lemma FrontGrows(w: World, scan: Scan, i: nat, read: seq<seq<string>>, k: nat)
    requires NoneFails(scan) && i < |scan.podLists| && k < |read| <= |scan.PodsAt(i)|
    ensures Front(w, scan, i, read, k + 1) ==
            Run(Front(w, scan, i, read, k), PodScanEvents(scan.view, scan.spec, scan.PodsAt(i)[k], read[k]))
  {
    var before, events := NodeEvents(scan, i, read[..k]), PodScanEvents(scan.view, scan.spec, scan.PodsAt(i)[k], read[k]);
    EventsGrow(scan, i, read, k);
    ProgramFaultless(before, scan.faults(i));
    ProgramFaultless(before + events, scan.faults(i));
    RunConcat(w, before, events);
  }

  /** The sweep of goroutine i for a deleted pod clears a file that only it touches exactly when the file is there. */
  lemma SweepOfPrivate(w: World, scan: Scan, tr: Trace, w': World, i: nat, k: nat, path: Path)
    requires CompleteScan(w, scan, tr, w') && Disjoint(ScanPrograms(scan, tr.listings))
    requires i < |scan.podLists| && k < |tr.listings[i]| && Private(ScanPrograms(scan, tr.listings), i, path)
    requires MustRead(scan.spec, scan.PodsAt(i)[k])
    ensures
      var before, pod := Front(w, scan, i, tr.listings[i], k), scan.PodsAt(i)[k];
      var after := Run(before, SweepEvents(tr.listings[i][k], pod));
      if Swept(before, path, pod) then Cleared(before, after, path) else Agree(before, after, path)
  {
    assert ComesTo(w, ScanPrograms(scan, tr.listings), tr.schedule, scan, i, tr.listings[i], k, tr.moments[i][k]);
    FrontHolds(w, scan, tr, w', i, k, path);
    SweepRun(Front(w, scan, i, tr.listings[i], k), tr.listings[i][k], scan.PodsAt(i)[k], path);
  }

  /** In two runs of one scan, goroutine i does the same to a file that only it touches. */
  lemma {:induction false} SameFront(w: World, scan: Scan, a: Trace, wa: World, b: Trace, wb: World, i: nat, k: nat, path: Path)
    requires NoneFails(scan) && i < |scan.podLists|
    requires CompleteScan(w, scan, a, wa) && Disjoint(ScanPrograms(scan, a.listings))
    requires CompleteScan(w, scan, b, wb) && Disjoint(ScanPrograms(scan, b.listings))
    requires Private(ScanPrograms(scan, a.listings), i, path) && Private(ScanPrograms(scan, b.listings), i, path)
    requires k <= |HandledAt(scan, i)|
    ensures Agree(Front(w, scan, i, a.listings[i], k), Front(w, scan, i, b.listings[i], k), path)
  {
    if k == 0 {
      FrontStarts(w, scan, i, a.listings[i]);
      FrontStarts(w, scan, i, b.listings[i]);
    } else {
      var n, pod := k - 1, scan.PodsAt(i)[k - 1];
      var x, y := Front(w, scan, i, a.listings[i], n), Front(w, scan, i, b.listings[i], n);
      SameFront(w, scan, a, wa, b, wb, i, n, path);
      FrontGrows(w, scan, i, a.listings[i], n);
      FrontGrows(w, scan, i, b.listings[i], n);
      if MustRead(scan.spec, pod) {
        SweepOfPrivate(w, scan, a, wa, i, n, path);
        SweepOfPrivate(w, scan, b, wb, i, n, path);
      } else {
        RunCallsLocal(x, y, Faultless(PodScanEvents(scan.view, scan.spec, pod, a.listings[i][n])), path);
      }
    }
  }

  /** At the end, a file that only goroutine i touches is as its calls alone leave it. */
  lemma PrivateAtEnd(w: World, programs: seq<seq<Call>>, i: nat, schedule: seq<nat>, path: Path)
    requires i < |programs| && Disjoint(programs) && Private(programs, i, path)
    requires AllDone(Execute(Start(w, programs), schedule))
    ensures Agree(Execute(Start(w, programs), schedule).world, RunCalls(w, programs[i]), path)
  {
    var s := Execute(Start(w, programs), schedule);
    ExecuteStaysOnTrack(w, programs, schedule);
    if Owns(programs[i], path) {
      assert Finish(s.world, s.threads[i]) == s.world;
    } else {
      RunCallsFrame(w, programs[i], path);
      UntouchedAtEnd(w, programs, schedule, path);
    }
  }

  /** A file within nobody's reach stays. */
  lemma UntouchedAtEnd(w: World, programs: seq<seq<Call>>, schedule: seq<nat>, path: Path)
    requires Disjoint(programs) && AllDone(Execute(Start(w, programs), schedule))
    requires forall i :: 0 <= i < |programs| ==> !Owns(programs[i], path)
    ensures Agree(Execute(Start(w, programs), schedule).world, w, path)
  {
    ExecuteStaysOnTrack(w, programs, schedule);
  }

  lemma OnlyReaches(w: World, scan: Scan, tr: Trace, w': World, i: nat, path: Path)
    requires CompleteScan(w, scan, tr, w') && ApartFrom(w, scan) && i < |scan.podLists|
    requires CanReach(scan, i, path) && (path in w.files || ContainerFile(scan, path))
    ensures Private(ScanPrograms(scan, tr.listings), i, path)
  {
    var programs := ScanPrograms(scan, tr.listings);
    forall j | 0 <= j < |programs| && j != i
      ensures !Owns(programs[j], path)
    {
      if Owns(programs[j], path) {
        OwnerCanReach(w, scan, tr, w', j, path);
      }
    }
  }

  lemma SameAtPath(w: World, scan: Scan, a: Trace, wa: World, b: Trace, wb: World, i: nat, path: Path)
    requires NoneFails(scan) && ApartFrom(w, scan) && i < |scan.podLists|
    requires CompleteScan(w, scan, a, wa) && CompleteScan(w, scan, b, wb)
    requires CanReach(scan, i, path) && (path in w.files || ContainerFile(scan, path))
    ensures Agree(wa, wb, path)
  {
    ApartFromIsDisjoint(w, scan, a, wa);
    ApartFromIsDisjoint(w, scan, b, wb);
    OnlyReaches(w, scan, a, wa, i, path);
    OnlyReaches(w, scan, b, wb, i, path);
    var k := |HandledAt(scan, i)|;
    SameFront(w, scan, a, wa, b, wb, i, k, path);
    assert a.listings[i][..k] == a.listings[i] && b.listings[i][..k] == b.listings[i];
    PrivateAtEnd(w, ScanPrograms(scan, a.listings), i, a.schedule, path);
    PrivateAtEnd(w, ScanPrograms(scan, b.listings), i, b.schedule, path);
  }

  /** Confluence: from one ledger any two complete runs of a scan without failures, in whatever order the goroutines take
      their steps, read the alert directory and give up, leave the same files and the same history for each of them. */
  lemma ScanIsConfluent(w: World, scan: Scan, a: Trace, wa: World, b: Trace, wb: World)
    requires NoneFails(scan) && ApartFrom(w, scan)
    requires CompleteScan(w, scan, a, wa) && CompleteScan(w, scan, b, wb)
    ensures SameByPath(wa, wb)
  {
    var p, q := ScanPrograms(scan, a.listings), ScanPrograms(scan, b.listings);
    forall path
      ensures Agree(wa, wb, path)
    {
      if i: nat :| i < |p| && (Owns(p[i], path) || Owns(q[i], path)) {
        if Owns(p[i], path) {
          OwnerCanReach(w, scan, a, wa, i, path);
        } else {
          OwnerCanReach(w, scan, b, wb, i, path);
        }
        SameAtPath(w, scan, a, wa, b, wb, i, path);
      } else {
        ApartFromIsDisjoint(w, scan, a, wa);
        ApartFromIsDisjoint(w, scan, b, wb);
        UntouchedAtEnd(w, p, a.schedule, path);
        UntouchedAtEnd(w, q, b.schedule, path);
      }
    }
    AgreeEverywhere(wa, wb);
  }

  // ---------------------------------------------------------------- what a scan does to a file

  /** A scan does to a file that only goroutine i can reach what that goroutine's calls alone do. */
  lemma ScanIsFront(w: World, scan: Scan, tr: Trace, w': World, i: nat, path: Path)
    requires CompleteScan(w, scan, tr, w') && ApartFrom(w, scan) && i < |scan.podLists|
    requires CanReach(scan, i, path) && (path in w.files || ContainerFile(scan, path))
    ensures Private(ScanPrograms(scan, tr.listings), i, path)
    ensures Agree(w', Front(w, scan, i, tr.listings[i], |tr.listings[i]|), path)
  {
    ApartFromIsDisjoint(w, scan, tr, w');
    OnlyReaches(w, scan, tr, w', i, path);
    PrivateAtEnd(w, ScanPrograms(scan, tr.listings), i, tr.schedule, path);
    assert tr.listings[i][..|tr.listings[i]|] == tr.listings[i];
  }

  /** A file that no goroutine can reach stays. */
  lemma ScanAvoids(w: World, scan: Scan, tr: Trace, w': World, path: Path)
    requires CompleteScan(w, scan, tr, w') && forall i :: 0 <= i < |scan.podLists| ==> !CanReach(scan, i, path)
    ensures Agree(w, w', path)
  {
    forall i | 0 <= i < |scan.podLists|
      ensures !Owns(ScanPrograms(scan, tr.listings)[i], path)
    {
      if Owns(ScanPrograms(scan, tr.listings)[i], path) {
        OwnerCanReach(w, scan, tr, w', i, path);
      }
    }
    ExecuteFrame(w, ScanPrograms(scan, tr.listings), tr.schedule, path);
  }

  lemma RecoveredOnly(scan: Scan, i: nat, read: seq<seq<string>>, path: Path)
    requires i < |scan.podLists| && |read| == |HandledAt(scan, i)| && !ContainerFile(scan, path)
    ensures AllAre(EventsFor(NodeEvents(scan, i, read), path), path, Recovered)
  {
    EventsForMembers(NodeEvents(scan, i, read), path);
    forall e | e in EventsFor(NodeEvents(scan, i, read), path)
      ensures e == Event(path, Recovered)
    {
      var k := EventCanReach(scan, i, read, e);
    }
  }

  /** Up to pod k, a file of no live container has been kept, or cleared if it held SENT. */
  lemma FrontKeepsOrClears(w: World, scan: Scan, i: nat, read: seq<seq<string>>, k: nat, path: Path)
    requires NoneFails(scan) && i < |scan.podLists| && k <= |read| == |HandledAt(scan, i)| && !ContainerFile(scan, path)
    ensures Agree(w, Front(w, scan, i, read, k), path) || Cleared(w, Front(w, scan, i, read, k), path)
    ensures Cleared(w, Front(w, scan, i, read, k), path) <==>
            Sent(w, path) && Event(path, Recovered) in NodeEvents(scan, i, read[..k])
  {
    var events, all := NodeEvents(scan, i, read[..k]), NodeEvents(scan, i, read);
    EventsFront(scan, i, read, k);
    RecoveredOnly(scan, i, read, path);
    EventsForMembers(all, path);
    EventsForMembers(events, path);
    forall e | e in EventsFor(events, path)
      ensures e == Event(path, Recovered)
    {
      assert e in events && e in all && e in EventsFor(all, path);
    }
    ProgramFaultless(events, scan.faults(i));
    RunProjects(w, events, path);
    RecoveryRun(w, EventsFor(events, path), path);
    assert EventsFor(events, path) != [] <==> Event(path, Recovered) in events by {
      if EventsFor(events, path) != [] {
        assert EventsFor(events, path)[0] in EventsFor(events, path);
      }
    }
  }

  /** Once goroutine i has come past the deleted pod k, a SENT file that mentions the pod has been cleared. */
  lemma ClearedAfterPod(w: World, scan: Scan, tr: Trace, w': World, i: nat, k: nat, path: Path)
    requires CompleteScan(w, scan, tr, w') && NoneFails(scan) && Disjoint(ScanPrograms(scan, tr.listings))
    requires i < |scan.podLists| && k < |tr.listings[i]| && Private(ScanPrograms(scan, tr.listings), i, path)
    requires MustRead(scan.spec, scan.PodsAt(i)[k]) && Sent(w, path) && !ContainerFile(scan, path)
    requires path.dir == AlertDir
    requires Contains(path.name, scan.PodsAt(i)[k].name) && Contains(path.name, scan.PodsAt(i)[k].namespace)
    ensures Cleared(w, Front(w, scan, i, tr.listings[i], k + 1), path)
  {
    FrontKeepsOrClears(w, scan, i, tr.listings[i], k, path);
    FrontKeepsOrClears(w, scan, i, tr.listings[i], k + 1, path);
    SweepOfPrivate(w, scan, tr, w', i, k, path);
    FrontGrows(w, scan, i, tr.listings[i], k);
  }

  lemma ClearedStays(w: World, scan: Scan, i: nat, read: seq<seq<string>>, k: nat, path: Path)
    requires NoneFails(scan) && i < |scan.podLists| && k <= |read| == |HandledAt(scan, i)| && !ContainerFile(scan, path)
    requires Cleared(w, Front(w, scan, i, read, k), path)
    ensures Cleared(w, Front(w, scan, i, read, |read|), path)
  {
    FrontKeepsOrClears(w, scan, i, read, k, path);
    FrontKeepsOrClears(w, scan, i, read, |read|, path);
    EventsFront(scan, i, read, k);
    assert read[..|read|] == read;
  }

  lemma ClearedFrom(w: World, scan: Scan, tr: Trace, w': World, i: nat, k: nat, path: Path)
    requires CompleteScan(w, scan, tr, w') && NoneFails(scan) && ApartFrom(w, scan)
    requires i < |scan.podLists| && k < |tr.listings[i]| && Private(ScanPrograms(scan, tr.listings), i, path)
    requires MustRead(scan.spec, scan.PodsAt(i)[k]) && !ContainerFile(scan, path)
    requires path.dir == AlertDir
    requires Contains(path.name, scan.PodsAt(i)[k].name) && Contains(path.name, scan.PodsAt(i)[k].namespace)
    ensures
      var after := Front(w, scan, i, tr.listings[i], |tr.listings[i]|);
      if Sent(w, path) then Cleared(w, after, path) else Agree(w, after, path)
  {
    if Sent(w, path) {
      ApartFromIsDisjoint(w, scan, tr, w');
      ClearedAfterPod(w, scan, tr, w', i, k, path);
      ClearedStays(w, scan, i, tr.listings[i], k + 1, path);
    } else {
      FrontKeepsOrClears(w, scan, i, tr.listings[i], |tr.listings[i]|, path);
    }
  }

  /** The scan reclaims: when nothing fails and no file can be reached by two goroutines, a pod under deletion that some
      goroutine handles, and that is not ignored, has every SENT file of the alert directory cleared whose name contains its
      name and its namespace, with one resolved mail each, unless a live pod that is handled owns the file. */
  lemma ScanReclaims(w: World, scan: Scan, tr: Trace, w': World, i: nat, pod: Pod, path: Path)
    requires CompleteScan(w, scan, tr, w') && NoneFails(scan) && ApartFrom(w, scan) && i < |scan.podLists|
    requires pod in HandledAt(scan, i) && pod.deleting && !PodIgnored(scan.spec, pod)
    requires path.dir == AlertDir && Contains(path.name, pod.name) && Contains(path.name, pod.namespace)
    requires !ContainerFile(scan, path)
    ensures !Sent(w', path)
    ensures if Sent(w, path) then Cleared(w, w', path) else Agree(w, w', path)
  {
    assert PodCanReach(scan.spec, pod, path);
    if path in w.files {
      var k :| 0 <= k < |HandledAt(scan, i)| && HandledAt(scan, i)[k] == pod;
      ScanIsFront(w, scan, tr, w', i, path);
      ClearedFrom(w, scan, tr, w', i, k, path);
    } else {
      ScanLeavesAbsent(w, scan, tr, w', path);
    }
  }

  /** A file that is not there, and belongs to no live container, does not come into being. */
  lemma ScanLeavesAbsent(w: World, scan: Scan, tr: Trace, w': World, path: Path)
    requires CompleteScan(w, scan, tr, w') && path !in w.files && !ContainerFile(scan, path)
    ensures Agree(w, w', path)
  {
    forall i | 0 <= i < |scan.podLists|
      ensures !Owns(ScanPrograms(scan, tr.listings)[i], path)
    {
      if Owns(ScanPrograms(scan, tr.listings)[i], path) {
        OwnerCanReach(w, scan, tr, w', i, path);
      }
    }
    ExecuteFrame(w, ScanPrograms(scan, tr.listings), tr.schedule, path);
  }

  /** A container of a live pod that is not ignored, in a status that the API promises, whose file is its own in the pod. */
  predicate Checked(scan: Scan, pod: Pod, c: ContainerStatus) {
    && !pod.deleting && !PodIgnored(scan.spec, pod) && KeysDistinct(pod) && c in pod.initStatuses + pod.statuses
    && Exclusive(c.state) && scan.view.visit(pod, c).first <= scan.view.visit(pod, c).second
  }

  /** The container's file afterwards. */
  predicate Alarmed(scan: Scan, pod: Pod, c: ContainerStatus, before: bool) {
    || Failing(scan.view.parse, pod, c, scan.view.visit(pod, c))
    || (before && !Healed(scan.view.parse, c, scan.view.visit(pod, c)))
  }

  lemma OwnPodStep(x: World, scan: Scan, pod: Pod, listing: seq<string>, c: ContainerStatus)
    requires Checked(scan, pod, c)
    ensures Sent(Run(x, PodScanEvents(scan.view, scan.spec, pod, listing)), PodKey(pod, c)) <==>
            Alarmed(scan, pod, c, Sent(x, PodKey(pod, c)))
  {
    RunProjects(x, PodScanEvents(scan.view, scan.spec, pod, listing), PodKey(pod, c));
    ContainerEventsFor(scan.view, pod, c);
    PodCheckVerdict(x, scan.view.parse, pod, c, scan.view.visit(pod, c));
  }

  lemma OtherPodStep(x: World, scan: Scan, pod: Pod, listing: seq<string>, path: Path)
    requires !PodCanReach(scan.spec, pod, path)
    ensures Agree(x, Run(x, PodScanEvents(scan.view, scan.spec, pod, listing)), path)
  {
    var events := PodScanEvents(scan.view, scan.spec, pod, listing);
    forall e | e in events
      ensures e.path != path
    {
      PodScanReaches(scan.view, scan.spec, pod, listing, e);
    }
    RunFrame(x, events, path);
  }

  /** Between pods k and m, which cannot reach the file, its state does not change. */
  lemma {:induction false} FrontMisses(w: World, scan: Scan, i: nat, read: seq<seq<string>>, k: nat, m: nat, path: Path)
    requires NoneFails(scan) && i < |scan.podLists| && k <= m <= |read| <= |scan.PodsAt(i)|
    requires forall j :: k <= j < m ==> !PodCanReach(scan.spec, scan.PodsAt(i)[j], path)
    ensures Agree(Front(w, scan, i, read, k), Front(w, scan, i, read, m), path)
    decreases m
  {
    if k < m {
      FrontMisses(w, scan, i, read, k, m - 1, path);
      FrontMissesOne(w, scan, i, read, m - 1, path);
    }
  }

  lemma FrontMissesOne(w: World, scan: Scan, i: nat, read: seq<seq<string>>, k: nat, path: Path)
    requires NoneFails(scan) && i < |scan.podLists| && k < |read| <= |scan.PodsAt(i)|
    requires !PodCanReach(scan.spec, scan.PodsAt(i)[k], path)
    ensures Agree(Front(w, scan, i, read, k), Front(w, scan, i, read, k + 1), path)
  {
    FrontGrows(w, scan, i, read, k);
    OtherPodStep(Front(w, scan, i, read, k), scan, scan.PodsAt(i)[k], read[k], path);
  }

  /** After all pods the file of a container of pod k0 is as the check of that container leaves it. */
  lemma FrontOfContainer(w: World, scan: Scan, i: nat, read: seq<seq<string>>, k0: nat, pod: Pod, c: ContainerStatus)
    requires NoneFails(scan) && i < |scan.podLists| && k0 < |read| <= |scan.PodsAt(i)|
    requires pod == scan.PodsAt(i)[k0] && Checked(scan, pod, c)
    requires forall j :: 0 <= j < |read| && j != k0 ==> !PodCanReach(scan.spec, scan.PodsAt(i)[j], PodKey(pod, c))
    ensures Sent(Front(w, scan, i, read, |read|), PodKey(pod, c)) <==> Alarmed(scan, pod, c, Sent(w, PodKey(pod, c)))
  {
    FrontStarts(w, scan, i, read);
    FrontMisses(w, scan, i, read, 0, k0, PodKey(pod, c));
    FrontGrows(w, scan, i, read, k0);
    OwnPodStep(Front(w, scan, i, read, k0), scan, pod, read[k0], c);
    FrontMisses(w, scan, i, read, k0 + 1, |read|, PodKey(pod, c));
  }

  /** What the scan does to the file of a container of a live pod that it handles. */
  lemma ScanVerdict(w: World, scan: Scan, tr: Trace, w': World, i: nat, k0: nat, pod: Pod, c: ContainerStatus)
    requires CompleteScan(w, scan, tr, w') && NoneFails(scan) && ApartFrom(w, scan) && i < |scan.podLists|
    requires k0 < |HandledAt(scan, i)| && pod == HandledAt(scan, i)[k0] && Checked(scan, pod, c)
    requires forall j :: 0 <= j < |HandledAt(scan, i)| && j != k0 ==>
      !PodCanReach(scan.spec, HandledAt(scan, i)[j], PodKey(pod, c))
    ensures Sent(w', PodKey(pod, c)) <==> Alarmed(scan, pod, c, Sent(w, PodKey(pod, c)))
  {
    assert pod in HandledAt(scan, i) && HasStatus(pod, c);
    assert PodCanReach(scan.spec, pod, PodKey(pod, c));
    assert forall j :: 0 <= j < |HandledAt(scan, i)| ==> HandledAt(scan, i)[j] == scan.PodsAt(i)[j];
    ScanIsFront(w, scan, tr, w', i, PodKey(pod, c));
    FrontOfContainer(w, scan, i, tr.listings[i], k0, pod, c);
  }
}
