/** The sweeps over the alert directory: the delete handler of the pod informer, and the hourly clean-up. */
module PodFiles {
  import opened Basics
  import opened Alerts
  import opened Cluster
  import opened Goroutines
  import opened Pods

  predicate OccursAt(s: string, t: string, i: nat) {
    i + |t| <= |s| && s[i..i + |t|] == t
  }

  predicate Contains(s: string, t: string) {
    exists i :: 0 <= i <= |s| && OccursAt(s, t, i)
  }

  /** A file that the deletion of this pod recovers. */
  predicate Mentions(name: string, pod: Pod) {
    Contains(name, pod.name) && Contains(name, pod.namespace)
  }

  function SweepEvents(listing: seq<string>, pod: Pod): seq<Event> {
    if listing == [] then []
    else
      var n := |listing| - 1;
      SweepEvents(listing[..n], pod) +
      (if Mentions(listing[n], pod) then [Event(Path(AlertDir, listing[n]), Recovered)] else [])
  }

  /** Recovers every listed file that mentions the pod. */
  method Sweep(ledger: Ledger, listing: seq<string>, pod: Pod, spec: Spec)
    modifies ledger
    ensures ledger.Now() == Process(ledger.EnvOf(spec.suspendEmailAlert), old(ledger.Now()), SweepEvents(listing, pod))
  {
    ghost var env, start := ledger.EnvOf(spec.suspendEmailAlert), ledger.Now();
    for i := 0 to |listing|
      invariant ledger.Now() == Process(env, start, SweepEvents(listing[..i], pod))
    {
      assert listing[..i + 1][..i] == listing[..i];
      var e := Event(Path(AlertDir, listing[i]), Recovered);
      ghost var before := SweepEvents(listing[..i], pod);
      ProcessStep(env, start, before, e);
      if Contains(listing[i], pod.name) && Contains(listing[i], pod.namespace) {
        ledger.SendEmail(e, spec.suspendEmailAlert);
      } else {
        assert before + [] == before;
      }
    }
    assert listing[..|listing|] == listing;
  }

  /** The delete handler of the pod informer. readable is false when the alert directory cannot be read. */
  method OnPodDelete(ledger: Ledger, view: View, spec: Spec, converted: bool, readable: bool, pod: Pod)
    requires SelectorsPresent(view.api)
    modifies ledger
    ensures !(converted && readable && Gate(view.api) == Success(false)) ==> ledger.Now() == old(ledger.Now())
    ensures converted && readable && Gate(view.api) == Success(false) ==> exists listing ::
      && Lists(listing, old(ledger.files))
      && ledger.Now() == Process(ledger.EnvOf(spec.suspendEmailAlert), old(ledger.Now()), SweepEvents(listing, pod))
  {
    if !converted {
      return;
    }
    var mcp := CheckMCPINProgress(view.api);
    if mcp.Failure? || mcp.value {
      return;
    }
    if !readable {
      return;
    }
    var listing := ledger.ReadDir();
    Sweep(ledger, listing, pod, spec);
  }

  function PodDeleteEvents(view: View, listing: seq<string>, pod: Pod): seq<Event> {
    if Gate(view.api) != Success(false) then [] else SweepEvents(listing, pod)
  }

  /** A SENT file of the alert directory whose name contains both the name and the namespace of the pod. */
  predicate Swept(w: World, path: Path, pod: Pod) {
    path.dir == AlertDir && Sent(w, path) && Contains(path.name, pod.name) && Contains(path.name, pod.namespace)
  }

  lemma {:induction false} SweepRun(w: World, listing: seq<string>, pod: Pod, path: Path)
    requires forall i, j :: 0 <= i < j < |listing| ==> listing[i] != listing[j]
    ensures
      var w' := Run(w, SweepEvents(listing, pod));
      if Swept(w, path, pod) && path.name in listing then Cleared(w, w', path) else Agree(w, w', path)
  {
    if listing == [] {
      assert Run(w, []) == w;
    } else {
      var n := |listing| - 1;
      var init, e := listing[..n], Event(Path(AlertDir, listing[n]), Recovered);
      SweepRun(w, init, pod, path);
      assert listing == init + [listing[n]];
      var before := SweepEvents(init, pod);
      if Mentions(listing[n], pod) {
        RunStep(w, before, e);
        if path == e.path {
          assert listing[n] !in init;
          RecoveryEffect(Run(w, before), path, NO_FAULTS, path);
        } else {
          DeliverFrame(Run(w, before), Call(e, NO_FAULTS), path);
        }
      } else {
        assert before + [] == before;
      }
    }
  }

  /** The sweep clears exactly the SENT files of the alert directory whose names contain both the pod name and the
      namespace, with one resolved mail each, and leaves every other file alone. */
  lemma SweepIsExact(w: World, listing: seq<string>, pod: Pod)
    requires Lists(listing, w.files)
    ensures
      var w' := Run(w, SweepEvents(listing, pod));
      forall path :: if Swept(w, path, pod) then Cleared(w, w', path) else Agree(w, w', path)
  {
    var w' := Run(w, SweepEvents(listing, pod));
    forall path: Path
      ensures if Swept(w, path, pod) then Cleared(w, w', path) else Agree(w, w', path)
    {
      SweepRun(w, listing, pod, path);
    }
  }

  lemma ContainsPart(a: string, t: string, b: string)
    ensures Contains(a + t + b, t)
  {
    assert OccursAt(a + t + b, t, |a|);
  }

  /** Every file that PodCheck can write for a container of the pod mentions the pod. */
  lemma PodKeyMentions(pod: Pod, c: ContainerStatus)
    ensures Mentions(PodKey(pod, c).name, pod)
  {
    var name := PodKey(pod, c).name;
    ContainsPart(".", pod.name, "-" + c.name + "-" + pod.namespace + ".txt");
    assert name == "." + pod.name + ("-" + c.name + "-" + pod.namespace + ".txt");
    ContainsPart("." + pod.name + "-" + c.name + "-", pod.namespace, ".txt");
    assert name == ("." + pod.name + "-" + c.name + "-") + pod.namespace + ".txt";
  }

  /** Deletion reclaims everything: with mail enabled, no update in progress and no failure, no container of the deleted
      pod, whatever its name, still has a file that holds SENT. */
  lemma DeletionReclaims(env: Env, s: Session, view: View, listing: seq<string>, pod: Pod, c: ContainerStatus)
    requires FaultFree(env) && Gate(view.api) == Success(false) && Lists(listing, s.world.files)
    ensures !Sent(Process(env, s, PodDeleteEvents(view, listing, pod)).world, PodKey(pod, c))
  {
    ProcessFaultFree(env, s, SweepEvents(listing, pod));
    SweepRun(s.world, listing, pod, PodKey(pod, c));
    PodKeyMentions(pod, c);
  }

  lemma ContainsNested(a: string, b: string, c: string, t: string)
    requires Contains(b, t)
    ensures Contains(a + b + c, t)
  {
    var i :| 0 <= i <= |b| && OccursAt(b, t, i);
    assert (a + b + c)[|a| + i..|a| + i + |t|] == b[i..i + |t|];
    assert OccursAt(a + b + c, t, |a| + i);
  }

  /** Every file of a pod whose name and namespace contain those of the deleted pod mentions the deleted pod. */
  lemma SimilarPodMentioned(pod: Pod, other: Pod, c: ContainerStatus)
    requires Contains(other.name, pod.name) && Contains(other.namespace, pod.namespace)
    ensures Mentions(PodKey(other, c).name, pod)
  {
    var name := PodKey(other, c).name;
    ContainsNested(".", other.name, "-" + c.name + "-" + other.namespace + ".txt", pod.name);
    assert name == "." + other.name + ("-" + c.name + "-" + other.namespace + ".txt");
    ContainsNested("." + other.name + "-" + c.name + "-", other.namespace, ".txt", pod.namespace);
    assert name == ("." + other.name + "-" + c.name + "-") + other.namespace + ".txt";
  }

  /** Exactly what a deletion does to the file of any other pod: it keeps the file and its history unless the file
      holds SENT and its whole name, container part included, contains the name and the namespace of the deleted pod;
      then the file goes, with a resolved mail for a container that may still be failing. */
  lemma DeletionOverreaches(w: World, listing: seq<string>, pod: Pod, other: Pod, c: ContainerStatus)
    requires Lists(listing, w.files)
    ensures
      var w', key := Run(w, SweepEvents(listing, pod)), PodKey(other, c);
      && (Agree(w, w', key) <==> !(Sent(w, key) && Contains(key.name, pod.name) && Contains(key.name, pod.namespace)))
      && (!Agree(w, w', key) <==> Cleared(w, w', key))
  {
    var w', key := Run(w, SweepEvents(listing, pod)), PodKey(other, c);
    SweepIsExact(w, listing, pod);
    assert if Swept(w, key, pod) then Cleared(w, w', key) else Agree(w, w', key);
  }

  /** Pod x in namespace prod, with a container web that is alerted, loses its alert when pod web of prod is deleted,
      although the names of the two pods have nothing in common. */
  lemma DeletionSilencesAnother(w: World, listing: seq<string>, pod: Pod, other: Pod, c: ContainerStatus)
    requires Lists(listing, w.files) && Sent(w, PodKey(other, c))
    requires pod.name == "web" && other.name == "x" && c.name == "web" && pod.namespace == other.namespace == "prod"
    ensures PodKey(other, c) == Path(AlertDir, ".x-web-prod.txt") && !Contains(other.name, pod.name)
    ensures Cleared(w, Run(w, SweepEvents(listing, pod)), PodKey(other, c))
  {
    NameOfNeighbour(other, c);
    assert ".x-web-prod.txt" == ".x-" + "web" + "-prod.txt" == ".x-web-" + "prod" + ".txt";
    ContainsPart(".x-", "web", "-prod.txt");
    ContainsPart(".x-web-", "prod", ".txt");
    DeletionOverreaches(w, listing, pod, other, c);
  }

  lemma NameOfNeighbour(other: Pod, c: ContainerStatus)
    requires other.name == "x" && c.name == "web" && other.namespace == "prod"
    ensures PodKey(other, c) == Path(AlertDir, ".x-web-prod.txt")
  {
  }

  /** A pod of the same name in another namespace keeps its alert. */
  lemma DeletionSparesNamespace(w: World, listing: seq<string>, pod: Pod, other: Pod, c: ContainerStatus)
    requires Lists(listing, w.files)
    requires pod.name == other.name == "web" && c.name == "c" && pod.namespace == "prod" && other.namespace == "dev"
    ensures PodKey(other, c) == Path(AlertDir, ".web-c-dev.txt")
    ensures Agree(w, Run(w, SweepEvents(listing, pod)), PodKey(other, c))
  {
    assert PodKey(other, c).name == ".web-c-dev.txt";
    NotContained(".web-c-dev.txt", "prod");
    DeletionOverreaches(w, listing, pod, other, c);
  }

  lemma NotContained(s: string, t: string)
    requires t != "" && t[0] !in s
    ensures !Contains(s, t)
  {
    forall i | 0 <= i <= |s|
      ensures !OccursAt(s, t, i)
    {
      if i + |t| <= |s| {
        assert s[i] in s && s[i..i + |t|][0] == s[i];
      }
    }
  }

  // ---------------------------------------------------------------- hourly clean-up

  /** The clock when the goroutine of a file tests the timer of a container of a pod. */
  type CleanupClock = (string, Pod, ContainerStatus) -> Time

  /** The container is running or completed and has never restarted, or its timer is up. */
  predicate Recoverable(parse: Parser, clock: CleanupClock, file: string, pod: Pod, c: ContainerStatus) {
    && (c.state.running || Completed(c.state))
    && (c.restartCount > 0 ==> c.lastTermination.Some? && TimerUp(parse, c, clock(file, pod, c)))
  }

  predicate FileMatches(file: string, pod: Pod, c: ContainerStatus) {
    file == PodKey(pod, c).name
  }

  /** The operator reads the last termination of every running or completed container that has restarted and has a
      file, so the record must be there. */
  ghost predicate TerminationsPresent(pods: seq<Pod>, files: map<Path, string>) {
    forall pod, c :: pod in pods && c in pod.statuses && PodKey(pod, c) in files ==> TerminationPresent(c)
  }

  predicate TerminationPresent(c: ContainerStatus) {
    (c.state.running || Completed(c.state)) && c.restartCount > 0 ==> c.lastTermination.Some?
  }

  function ContainerRecovery(parse: Parser, clock: CleanupClock, file: string, pod: Pod, cs: seq<ContainerStatus>): seq<Event> {
    if cs == [] then []
    else
      var n := |cs| - 1;
      ContainerRecovery(parse, clock, file, pod, cs[..n]) +
      (if FileMatches(file, pod, cs[n]) && Recoverable(parse, clock, file, pod, cs[n])
       then [Event(Path(AlertDir, file), Recovered)] else [])
  }

  /** What the goroutine of one file does. */
  function FileRecovery(parse: Parser, clock: CleanupClock, file: string, pods: seq<Pod>): seq<Event> {
    if pods == [] then []
    else
      var n := |pods| - 1;
      FileRecovery(parse, clock, file, pods[..n]) + ContainerRecovery(parse, clock, file, pods[n], pods[n].statuses)
  }

  /** Some container matches the file and is recoverable. */
  predicate FileRecoverable(parse: Parser, clock: CleanupClock, file: string, pods: seq<Pod>) {
    exists i :: 0 <= i < |pods| && PodRecovers(parse, clock, file, pods[i], pods[i].statuses)
  }

  predicate PodRecovers(parse: Parser, clock: CleanupClock, file: string, pod: Pod, cs: seq<ContainerStatus>) {
    exists k :: 0 <= k < |cs| && FileMatches(file, pod, cs[k]) && Recoverable(parse, clock, file, pod, cs[k])
  }

  lemma {:induction false} ContainerRecoveryExact(parse: Parser, clock: CleanupClock, file: string, pod: Pod, cs: seq<ContainerStatus>)
    ensures AllAre(ContainerRecovery(parse, clock, file, pod, cs), Path(AlertDir, file), Recovered)
    ensures ContainerRecovery(parse, clock, file, pod, cs) != [] <==> PodRecovers(parse, clock, file, pod, cs)
  {
    if cs != [] {
      var init := cs[..|cs| - 1];
      ContainerRecoveryExact(parse, clock, file, pod, init);
      assert forall k :: 0 <= k < |init| ==> init[k] == cs[k];
    }
  }

  lemma {:induction false} FileRecoveryExact(parse: Parser, clock: CleanupClock, file: string, pods: seq<Pod>)
    ensures AllAre(FileRecovery(parse, clock, file, pods), Path(AlertDir, file), Recovered)
    ensures FileRecovery(parse, clock, file, pods) != [] <==> FileRecoverable(parse, clock, file, pods)
  {
    if pods != [] {
      var n := |pods| - 1;
      FileRecoveryExact(parse, clock, file, pods[..n]);
      ContainerRecoveryExact(parse, clock, file, pods[n], pods[n].statuses);
      FileRecoverableStep(parse, clock, file, pods, n);
    }
  }

  lemma FileRecoverableStep(parse: Parser, clock: CleanupClock, file: string, pods: seq<Pod>, n: nat)
    requires |pods| == n + 1
    ensures FileRecoverable(parse, clock, file, pods) <==>
            FileRecoverable(parse, clock, file, pods[..n]) || PodRecovers(parse, clock, file, pods[n], pods[n].statuses)
  {
    assert forall i :: 0 <= i < n ==> pods[..n][i] == pods[i];
  }

  /** The calls of one goroutine; faults gives what its n-th call meets. */
  function Program(events: seq<Event>, faults: nat -> Faults): (calls: seq<Call>)
    ensures |calls| == |events|
  {
    seq(|events|, i requires 0 <= i < |events| => Call(events[i], faults(i)))
  }

  lemma ProgramFaultless(events: seq<Event>, faults: nat -> Faults)
    requires forall n :: faults(n) == NO_FAULTS
    ensures Program(events, faults) == Faultless(events)
  {
  }

  /** The goroutines of the clean-up, one for each listed file. */
  function CleanupPrograms(parse: Parser, clock: CleanupClock, listing: seq<string>, pods: seq<Pod>,
                           faults: string -> nat -> Faults): (programs: seq<seq<Call>>)
    ensures |programs| == |listing|
  {
    seq(|listing|, i requires 0 <= i < |listing| =>
      Program(FileRecovery(parse, clock, listing[i], pods), faults(listing[i])))
  }

  /** Each goroutine touches only its own file. */
  lemma CleanupOwnsItsFile(parse: Parser, clock: CleanupClock, listing: seq<string>, pods: seq<Pod>,
                           faults: string -> nat -> Faults, i: nat, path: Path)
    requires i < |listing| && Owns(CleanupPrograms(parse, clock, listing, pods, faults)[i], path)
    ensures path == Path(AlertDir, listing[i])
  {
    var events := FileRecovery(parse, clock, listing[i], pods);
    FileRecoveryExact(parse, clock, listing[i], pods);
    var program := Program(events, faults(listing[i]));
    var c :| c in program && c.event.path == path;
    var k :| 0 <= k < |program| && program[k] == c;
    assert events[k] in events;
  }

  lemma CleanupDisjoint(parse: Parser, clock: CleanupClock, listing: seq<string>, pods: seq<Pod>,
                        faults: string -> nat -> Faults)
    requires forall i, j :: 0 <= i < j < |listing| ==> listing[i] != listing[j]
    ensures Disjoint(CleanupPrograms(parse, clock, listing, pods, faults))
  {
    var programs := CleanupPrograms(parse, clock, listing, pods, faults);
    forall i, j, path | 0 <= i < |programs| && 0 <= j < |programs| && Owns(programs[i], path) && Owns(programs[j], path)
      ensures i == j
    {
      CleanupOwnsItsFile(parse, clock, listing, pods, faults, i, path);
      CleanupOwnsItsFile(parse, clock, listing, pods, faults, j, path);
    }
  }

  /** The nested scan of one goroutine. */
  method RecoverFile(parse: Parser, clock: CleanupClock, file: string, pods: seq<Pod>, ghost files: map<Path, string>)
    returns (events: seq<Event>)
    requires TerminationsPresent(pods, files) && Path(AlertDir, file) in files
    ensures events == FileRecovery(parse, clock, file, pods)
  {
    events := [];
    for i := 0 to |pods|
      invariant events == FileRecovery(parse, clock, file, pods[..i])
    {
      assert pods[..i + 1][..i] == pods[..i] && pods[i] in pods;
      var more := RecoverFromPod(parse, clock, file, pods[i]);
      events := events + more;
    }
    assert pods[..|pods|] == pods;
  }

  /** The inner loop: the containers of one pod. */
  method RecoverFromPod(parse: Parser, clock: CleanupClock, file: string, pod: Pod) returns (events: seq<Event>)
    requires forall c :: c in pod.statuses && FileMatches(file, pod, c) ==> TerminationPresent(c)
    ensures events == ContainerRecovery(parse, clock, file, pod, pod.statuses)
  {
    events := [];
    for k := 0 to |pod.statuses|
      invariant events == ContainerRecovery(parse, clock, file, pod, pod.statuses[..k])
    {
      assert pod.statuses[..k + 1][..k] == pod.statuses[..k];
      var c := pod.statuses[k];
      if file == PodKey(pod, c).name {
        assert c in pod.statuses;
        if c.state.running || (c.state.terminated.Some? && c.state.terminated.value.exitCode == 0) {
          if c.restartCount > 0 {
            if PodLastRestartTimerUp(parse, c.lastTermination.value.finishedAt, clock(file, pod, c)) {
              events := events + [Event(PodKey(pod, c), Recovered)];
            }
          } else {
            events := events + [Event(PodKey(pod, c), Recovered)];
          }
        }
      }
    }
    assert pod.statuses[..|pod.statuses|] == pod.statuses;
  }

  /** A failed pod query leaves the clean-up with no pods. */
  function PodsOf(podList: Result<seq<Pod>>): seq<Pod> {
    if podList.Success? then podList.value else []
  }

  /** One goroutine for each listed file. */
  method PlanCleanup(parse: Parser, clock: CleanupClock, listing: seq<string>, pods: seq<Pod>,
                     faults: string -> nat -> Faults, ghost files: map<Path, string>) returns (programs: seq<seq<Call>>)
    requires TerminationsPresent(pods, files) && forall n :: n in listing ==> Path(AlertDir, n) in files
    ensures programs == CleanupPrograms(parse, clock, listing, pods, faults)
  {
    programs := [];
    for i := 0 to |listing|
      invariant programs == CleanupPrograms(parse, clock, listing, pods, faults)[..i]
    {
      assert listing[i] in listing;
      var events := RecoverFile(parse, clock, listing[i], pods, files);
      programs := programs + [Program(events, faults(listing[i]))];
    }
  }

  /** The hourly clean-up. */
  method CleanUpRunningPods(ledger: Ledger, podList: Result<seq<Pod>>, readable: bool, parse: Parser,
                            clock: CleanupClock, faults: string -> nat -> Faults, spec: Spec)
    requires TerminationsPresent(PodsOf(podList), ledger.files)
    modifies ledger
    ensures ledger.calls == old(ledger.calls)
    ensures !readable || spec.suspendEmailAlert != Some(false) ==> ledger.Now() == old(ledger.Now())
    ensures readable && spec.suspendEmailAlert == Some(false) ==> exists listing ::
      && Lists(listing, old(ledger.files))
      && SameByPath(ledger.Now().world,
                    RunCalls(old(ledger.Now()).world,
                             Joined(CleanupPrograms(parse, clock, listing, PodsOf(podList), faults))))
  {
    var pods := PodsOf(podList);
    if !readable {
      return;
    }
    var listing := ledger.ReadDir();
    if spec.suspendEmailAlert != Some(false) {
      return;
    }
    var programs := PlanCleanup(parse, clock, listing, pods, faults, ledger.files);
    CleanupDisjoint(parse, clock, listing, pods, faults);
    RunGoroutines(ledger, programs);
  }

  /** The file is that of this container, which is running or has terminated without an error, and has not restarted or
      whose last termination is known to be more than thirty minutes ago. */
  predicate Recovers(parse: Parser, clock: CleanupClock, file: string, pod: Pod, c: ContainerStatus) {
    && file == "." + pod.name + "-" + c.name + "-" + pod.namespace + ".txt"
    && (c.state.running || (c.state.terminated.Some? && c.state.terminated.value.exitCode == 0))
    && (c.restartCount <= 0 ||
        (c.lastTermination.Some? && parse(c.lastTermination.value.finishedAt).Some? &&
         clock(file, pod, c) - parse(c.lastTermination.value.finishedAt).value > 1_800_000_000_000))
  }

  /** Some container of some pod recovers the file. */
  predicate SomeRecovers(parse: Parser, clock: CleanupClock, file: string, pods: seq<Pod>) {
    exists i, k :: 0 <= i < |pods| && 0 <= k < |pods[i].statuses| && Recovers(parse, clock, file, pods[i], pods[i].statuses[k])
  }

  /** The clean-up removes this file: it is listed, it holds SENT, and some container recovers it. */
  predicate CleanedUp(w: World, parse: Parser, clock: CleanupClock, listing: seq<string>, pods: seq<Pod>, path: Path) {
    path.dir == AlertDir && path.name in listing && Sent(w, path) && SomeRecovers(parse, clock, path.name, pods)
  }

  lemma SomeRecoversExactly(parse: Parser, clock: CleanupClock, file: string, pods: seq<Pod>)
    ensures SomeRecovers(parse, clock, file, pods) <==> FileRecoverable(parse, clock, file, pods)
  {
    forall i, k | 0 <= i < |pods| && 0 <= k < |pods[i].statuses|
      ensures Recovers(parse, clock, file, pods[i], pods[i].statuses[k]) <==>
              FileMatches(file, pods[i], pods[i].statuses[k]) && Recoverable(parse, clock, file, pods[i], pods[i].statuses[k])
    {
    }
    if FileRecoverable(parse, clock, file, pods) {
      var i :| 0 <= i < |pods| && PodRecovers(parse, clock, file, pods[i], pods[i].statuses);
      var k :| 0 <= k < |pods[i].statuses| && FileMatches(file, pods[i], pods[i].statuses[k]) &&
        Recoverable(parse, clock, file, pods[i], pods[i].statuses[k]);
      assert Recovers(parse, clock, file, pods[i], pods[i].statuses[k]);
    }
    if i, k :| 0 <= i < |pods| && 0 <= k < |pods[i].statuses| && Recovers(parse, clock, file, pods[i], pods[i].statuses[k]) {
      assert PodRecovers(parse, clock, file, pods[i], pods[i].statuses);
    }
  }

  lemma {:induction false} RecoveryRun(w: World, events: seq<Event>, path: Path)
    requires AllAre(events, path, Recovered)
    ensures
      var w' := Run(w, events);
      if events != [] && Sent(w, path) then Cleared(w, w', path) else Agree(w, w', path)
  {
    if events == [] {
      assert Run(w, []) == w;
    } else {
      var init, e := events[..|events| - 1], events[|events| - 1];
      assert e in events && forall x :: x in init ==> x in events;
      assert events == init + [e];
      RecoveryRun(w, init, path);
      RunStep(w, init, e);
      RecoveryEffect(Run(w, init), path, NO_FAULTS, path);
    }
  }

  lemma CleanupFile(w: World, parse: Parser, clock: CleanupClock, listing: seq<string>, pods: seq<Pod>,
                    faults: string -> nat -> Faults, path: Path)
    requires Lists(listing, w.files)
    requires forall file, n :: faults(file)(n) == NO_FAULTS
    ensures
      var w' := RunCalls(w, Joined(CleanupPrograms(parse, clock, listing, pods, faults)));
      if CleanedUp(w, parse, clock, listing, pods, path) then Cleared(w, w', path) else Agree(w, w', path)
  {
    var programs := CleanupPrograms(parse, clock, listing, pods, faults);
    CleanupDisjoint(parse, clock, listing, pods, faults);
    if path.dir == AlertDir && path.name in listing {
      var i: nat :| i < |listing| && listing[i] == path.name;
      var events := FileRecovery(parse, clock, listing[i], pods);
      assert programs[i] == Faultless(events);
      FileRecoveryExact(parse, clock, listing[i], pods);
      SomeRecoversExactly(parse, clock, listing[i], pods);
      RecoveryRun(w, events, path);
      if events == [] {
        NobodyElse(parse, clock, listing, pods, faults, i);
        RunCallsFrame(w, Joined(programs), path);
      } else {
        assert programs[i][0] in programs[i] && events[0] in events;
        JoinedRun(w, programs, i, path);
      }
    } else {
      forall i | 0 <= i < |programs|
        ensures !Owns(programs[i], path)
      {
        if Owns(programs[i], path) {
          CleanupOwnsItsFile(parse, clock, listing, pods, faults, i, path);
        }
      }
      JoinedOwner(programs, path);
      RunCallsFrame(w, Joined(programs), path);
    }
  }

  lemma NobodyElse(parse: Parser, clock: CleanupClock, listing: seq<string>, pods: seq<Pod>,
                   faults: string -> nat -> Faults, k: nat)
    requires k < |listing| && FileRecovery(parse, clock, listing[k], pods) == []
    ensures !Owns(Joined(CleanupPrograms(parse, clock, listing, pods, faults)), Path(AlertDir, listing[k]))
  {
    var programs := CleanupPrograms(parse, clock, listing, pods, faults);
    var path := Path(AlertDir, listing[k]);
    forall i | 0 <= i < |programs|
      ensures !Owns(programs[i], path)
    {
      if Owns(programs[i], path) {
        CleanupOwnsItsFile(parse, clock, listing, pods, faults, i, path);
      }
    }
    JoinedOwner(programs, path);
  }

  /** Clean-up under any schedule: when nothing fails, every complete interleaving of the goroutines clears exactly the
      SENT files with a matching recoverable container, with one resolved mail each, and leaves all others alone. */
  lemma CleanupIsExact(w: World, parse: Parser, clock: CleanupClock, listing: seq<string>, pods: seq<Pod>,
                       faults: string -> nat -> Faults, schedule: seq<nat>)
    requires Lists(listing, w.files)
    requires forall file, n :: faults(file)(n) == NO_FAULTS
    requires AllDone(Execute(Start(w, CleanupPrograms(parse, clock, listing, pods, faults)), schedule))
    ensures
      var w' := Execute(Start(w, CleanupPrograms(parse, clock, listing, pods, faults)), schedule).world;
      forall path :: if CleanedUp(w, parse, clock, listing, pods, path) then Cleared(w, w', path) else Agree(w, w', path)
  {
    var programs := CleanupPrograms(parse, clock, listing, pods, faults);
    var w' := Execute(Start(w, programs), schedule).world;
    CleanupDisjoint(parse, clock, listing, pods, faults);
    ScheduleIndependence(w, programs, schedule);
    forall path: Path
      ensures if CleanedUp(w, parse, clock, listing, pods, path) then Cleared(w, w', path) else Agree(w, w', path)
    {
      CleanupFile(w, parse, clock, listing, pods, faults, path);
      SameByPathAt(w', RunCalls(w, Joined(programs)), path);
    }
  }
}
