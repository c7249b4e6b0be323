/** The pod handlers: PodCheck, the update and the delete handler of the pod informer. */
module Pods {
  import opened Basics
  import opened Alerts
  import opened Histories
  import opened Cluster
  import opened Ignores

  datatype Termination = Termination(exitCode: int, finishedAt: string)

  /** The state of a container; waiting holds the reason. The API promises that at most one part is set. */
  datatype State = State(running: bool, waiting: Option<string>, terminated: Option<Termination>)

  datatype ContainerStatus = ContainerStatus(
    name: string,
    image: string,
    restartCount: int,
    state: State,
    lastTermination: Option<Termination>)

  datatype Container = Container(name: string, image: string)

  /** claims holds, for each volume, the name of its persistent volume claim if it has one. */
  datatype Pod = Pod(
    name: string,
    namespace: string,
    nodeName: string,
    deleting: bool,
    claims: seq<Option<string>>,
    containers: seq<Container>,
    initStatuses: seq<ContainerStatus>,
    statuses: seq<ContainerStatus>)

  /** What the look-up of the volume attachments of a pod answers. */
  datatype PvLookup = LookupFailed(notFound: bool) | Attached(elsewhere: bool)

  /** What one PodCheck meets: the volume look-up, and the clock at its first and at its second timer test. */
  datatype Visit = Visit(pv: PvLookup, first: Time, second: Time)

  /** Parses a date-time, where it can. */
  type Parser = string -> Option<Time>

  datatype Spec = Spec(suspendEmailAlert: Option<bool>, ignored: IgnoreList)

  /** The cluster as the pod handlers see it. childPolicy answers whether a child policy is in progress in a namespace. */
  datatype View = View(
    api: Api,
    parse: Parser,
    visit: (Pod, ContainerStatus) -> Visit,
    childPolicy: string -> Result<bool>)

  function PodKey(pod: Pod, c: ContainerStatus): Path {
    Path(AlertDir, "." + pod.name + "-" + c.name + "-" + pod.namespace + ".txt")
  }

  predicate PodLastRestartTimerUp(parse: Parser, timeStr: string, now: Time) {
    match parse(timeStr)
    case None => false
    case Some(t) => t < now - 30 * MINUTE
  }

  /** A last termination that failed and whose end is known. */
  predicate FailedBefore(c: ContainerStatus) {
    c.lastTermination.Some? && c.lastTermination.value.exitCode != 0 && c.lastTermination.value.finishedAt != ""
  }

  predicate TimerUp(parse: Parser, c: ContainerStatus, now: Time)
    requires c.lastTermination.Some?
  {
    PodLastRestartTimerUp(parse, c.lastTermination.value.finishedAt, now)
  }

  predicate Crashed(s: State) {
    s.terminated.Some? && s.terminated.value.exitCode != 0
  }

  predicate Completed(s: State) {
    s.terminated.Some? && s.terminated.value.exitCode == 0
  }

  predicate HasPv(pod: Pod) {
    exists i :: 0 <= i < |pod.claims| && pod.claims[i].Some? && pod.claims[i].value != ""
  }

  method HasPvScan(pod: Pod) returns (r: bool)
    ensures r <==> HasPv(pod)
  {
    for i := 0 to |pod.claims|
      invariant forall j :: 0 <= j < i ==> !(pod.claims[j].Some? && pod.claims[j].value != "")
    {
      if pod.claims[i].Some? && pod.claims[i].value != "" {
        return true;
      }
    }
    return false;
  }

  /** One alert for every container of the spec that has this name. */
  function AlertsByName(containers: seq<Container>, name: string, path: Path): seq<Event> {
    if containers == [] then []
    else
      var n := |containers| - 1;
      AlertsByName(containers[..n], name, path) + (if containers[n].name == name then [Event(path, Faulty)] else [])
  }

  function CrashLoopEvents(pod: Pod, c: ContainerStatus, pv: PvLookup): seq<Event> {
    if HasPv(pod) && pv != Attached(false) then [Event(PodKey(pod, c), Faulty)]
    else AlertsByName(pod.containers, c.name, PodKey(pod, c))
  }

  function FirstEvents(parse: Parser, pod: Pod, c: ContainerStatus, v: Visit): seq<Event> {
    if Crashed(c.state) then [Event(PodKey(pod, c), Faulty)]
    else if (c.state.running || Completed(c.state)) &&
            (c.restartCount > 0 ==> FailedBefore(c) && TimerUp(parse, c, v.first)) then [Event(PodKey(pod, c), Recovered)]
    else []
  }

  function SecondEvents(parse: Parser, pod: Pod, c: ContainerStatus, v: Visit): seq<Event> {
    match c.state.waiting
    case Some(reason) =>
      if reason == "CrashLoopBackOff" then CrashLoopEvents(pod, c, v.pv)
      else if reason == "ErrImagePull" || reason == "ImagePullBackOff" then [Event(PodKey(pod, c), Faulty)]
      else []
    case None =>
      if (if c.restartCount <= 0 then c.state.terminated.None?
          else if FailedBefore(c) then TimerUp(parse, c, v.second)
          else Completed(c.state))
      then [Event(PodKey(pod, c), Recovered)]
      else []
  }

  /** The events of one PodCheck, in order. */
  function PodEvents(parse: Parser, pod: Pod, c: ContainerStatus, v: Visit): seq<Event> {
    FirstEvents(parse, pod, c, v) + SecondEvents(parse, pod, c, v)
  }

  method PodCheck(ledger: Ledger, view: View, pod: Pod, c: ContainerStatus, spec: Spec)
    modifies ledger
    ensures ledger.Now() == Process(ledger.EnvOf(spec.suspendEmailAlert), old(ledger.Now()),
                                    PodEvents(view.parse, pod, c, view.visit(pod, c)))
  {
    var v := view.visit(pod, c);
    var key := PodKey(pod, c);
    ghost var env, start := ledger.EnvOf(spec.suspendEmailAlert), ledger.Now();
    ghost var first, second := FirstEvents(view.parse, pod, c, v), SecondEvents(view.parse, pod, c, v);
    ProcessOne(env, start, Event(key, Faulty));
    ProcessOne(env, start, Event(key, Recovered));
    if c.state.terminated.Some? && c.state.terminated.value.exitCode != 0 {
      ledger.SendEmail(Event(key, Faulty), spec.suspendEmailAlert);
    } else if c.state.running || (c.state.terminated.Some? && c.state.terminated.value.exitCode == 0) {
      if c.restartCount > 0 {
        if FailedBefore(c) {
          if PodLastRestartTimerUp(view.parse, c.lastTermination.value.finishedAt, v.first) {
            ledger.SendEmail(Event(key, Recovered), spec.suspendEmailAlert);
          }
        }
      } else {
        ledger.SendEmail(Event(key, Recovered), spec.suspendEmailAlert);
      }
    }
    ghost var middle := ledger.Now();
    assert middle == Process(env, start, first);
    ProcessOne(env, middle, Event(key, Faulty));
    ProcessOne(env, middle, Event(key, Recovered));
    ProcessConcat(env, start, first, second);
    if c.state.waiting.Some? {
      var reason := c.state.waiting.value;
      if reason == "CrashLoopBackOff" {
        var pv := HasPvScan(pod);
        if pv && v.pv.LookupFailed? {
          ledger.SendEmail(Event(key, Faulty), spec.suspendEmailAlert);
        } else if pv && v.pv.elsewhere {
          ledger.SendEmail(Event(key, Faulty), spec.suspendEmailAlert);
        } else {
          AlertByName(ledger, pod.containers, c.name, key, spec);
        }
      } else if reason == "ErrImagePull" || reason == "ImagePullBackOff" {
        ledger.SendEmail(Event(key, Faulty), spec.suspendEmailAlert);
      }
    } else {
      if c.restartCount > 0 {
        if FailedBefore(c) {
          if PodLastRestartTimerUp(view.parse, c.lastTermination.value.finishedAt, v.second) {
            ledger.SendEmail(Event(key, Recovered), spec.suspendEmailAlert);
          }
        } else if c.state.terminated.Some? && c.state.terminated.value.exitCode == 0 {
          ledger.SendEmail(Event(key, Recovered), spec.suspendEmailAlert);
        }
      } else {
        if c.state.terminated.None? {
          ledger.SendEmail(Event(key, Recovered), spec.suspendEmailAlert);
        }
      }
    }
    assert ledger.Now() == Process(env, middle, second);
  }

  lemma ProcessOne(env: Env, s: Session, e: Event)
    ensures Process(env, s, [e]) == Next(env, s, e)
    ensures Process(env, s, []) == s
  {
    assert [] + [e] == [e];
    ProcessStep(env, s, [], e);
  }

  /** The two branches of the source differ only in the text of the alert. */
  method AlertByName(ledger: Ledger, containers: seq<Container>, name: string, path: Path, spec: Spec)
    modifies ledger
    ensures ledger.Now() == Process(ledger.EnvOf(spec.suspendEmailAlert), old(ledger.Now()),
                                    AlertsByName(containers, name, path))
  {
    ghost var env, start := ledger.EnvOf(spec.suspendEmailAlert), ledger.Now();
    for i := 0 to |containers|
      invariant ledger.Now() == Process(env, start, AlertsByName(containers[..i], name, path))
    {
      assert containers[..i + 1][..i] == containers[..i];
      ghost var before := AlertsByName(containers[..i], name, path);
      ProcessStep(env, start, before, Event(path, Faulty));
      if containers[i].name == name {
        ledger.SendEmail(Event(path, Faulty), spec.suspendEmailAlert);
      } else {
        assert before + [] == before;
      }
    }
    assert containers[..|containers|] == containers;
  }

  /** All events are for this path and carry this verdict. */
  ghost predicate AllAre(events: seq<Event>, path: Path, v: Verdict) {
    forall e :: e in events ==> e == Event(path, v)
  }

  /** The entries that a verdict adds when it changes the file. */
  function Swing(v: Verdict): seq<Entry> {
    if v == Faulty then [Alert(true)] else [Resolved(true), Removed]
  }

  /** No other path changes. */
  ghost predicate OnlyTouches(w: World, w': World, path: Path) {
    forall other :: other != path ==> Agree(w, w', other)
  }

  lemma OnlyTouchesTransitive(w: World, w1: World, w2: World, path: Path)
    requires OnlyTouches(w, w1, path) && OnlyTouches(w1, w2, path)
    ensures OnlyTouches(w, w2, path)
  {
    forall other | other != path
      ensures Agree(w, w2, other)
    {
      assert Agree(w, w1, other) && Agree(w1, w2, other);
    }
  }

  /** Any number of equal verdicts does what one does. */
  lemma {:induction false} UniformRun(w: World, events: seq<Event>, path: Path, v: Verdict)
    requires AllAre(events, path, v)
    ensures
      var w' := Run(w, events);
      && (events == [] ==> w' == w)
      && (events != [] ==> (Sent(w', path) <==> v == Faulty))
      && History(w'.log, path) ==
         (if events == [] || (Sent(w, path) <==> v == Faulty) then History(w.log, path)
          else History(w.log, path) + Swing(v))
      && OnlyTouches(w, w', path)
  {
    if events == [] {
      assert Run(w, []) == w;
    } else {
      var init, e := events[..|events| - 1], events[|events| - 1];
      assert e in events && forall x :: x in init ==> x in events;
      assert events == init + [e];
      UniformRun(w, init, path, v);
      RunStep(w, init, e);
      var w1 := Run(w, init);
      OneEvent(w1, e);
      forall other | other != path
        ensures Agree(w1, Run(w, events), other)
      {
        DeliverFrame(w1, Call(e, NO_FAULTS), other);
      }
      OnlyTouchesTransitive(w, w1, Run(w, events), path);
    }
  }

  lemma OneEvent(w: World, e: Event)
    ensures
      var w' := Deliver(w, Call(e, NO_FAULTS));
      && (Sent(w', e.path) <==> e.verdict == Faulty)
      && History(w'.log, e.path) ==
         (if Sent(w, e.path) <==> e.verdict == Faulty then History(w.log, e.path)
          else History(w.log, e.path) + Swing(e.verdict))
  {
    if e.verdict == Recovered {
      RecoveryEffect(w, e.path, NO_FAULTS, e.path);
    } else if !Sent(w, e.path) {
      AnnounceEffect(w, e.path, NO_FAULTS, e.path);
      AnnounceEffect(w.(files := w.files[e.path := ""]), e.path, NO_FAULTS, e.path);
    }
  }

  lemma {:induction false} AlertsByNameFaulty(containers: seq<Container>, name: string, path: Path)
    ensures AllAre(AlertsByName(containers, name, path), path, Faulty)
    ensures AlertsByName(containers, name, path) != [] <==> exists i :: 0 <= i < |containers| && containers[i].name == name
  {
    if containers != [] {
      AlertsByNameFaulty(containers[..|containers| - 1], name, path);
      assert forall i :: 0 <= i < |containers| - 1 ==> containers[..|containers| - 1][i] == containers[i];
    }
  }

  /** Each of the two parts of PodCheck has one verdict. */
  lemma PartsAreUniform(parse: Parser, pod: Pod, c: ContainerStatus, v: Visit)
    ensures AllAre(FirstEvents(parse, pod, c, v), PodKey(pod, c), if Crashed(c.state) then Faulty else Recovered)
    ensures AllAre(SecondEvents(parse, pod, c, v), PodKey(pod, c), if c.state.waiting.Some? then Faulty else Recovered)
  {
    AlertsByNameFaulty(pod.containers, c.name, PodKey(pod, c));
  }

  /** Two runs of equal verdicts on one path, one after the other. */
  lemma TwoRuns(w: World, a: seq<Event>, b: seq<Event>, path: Path, d1: Verdict, d2: Verdict)
    requires AllAre(a, path, d1) && AllAre(b, path, d2)
    ensures
      var w' := Run(w, a + b);
      var before, after := History(w.log, path), History(w'.log, path);
      && OnlyTouches(w, w', path)
      && Count(IsAlert, after) <= Count(IsAlert, before) + 1
      && Count(IsResolved, after) <= Count(IsResolved, before) + 1
      && (a + b == [] ==> w' == w)
      && (a + b != [] ==> (Sent(w', path) <==> (a + b)[|a + b| - 1].verdict == Faulty))
  {
    var w1 := Run(w, a);
    var w2 := Run(w1, b);
    RunConcat(w, a, b);
    UniformRun(w, a, path, d1);
    UniformRun(w1, b, path, d2);
    OnlyTouchesTransitive(w, w1, w2, path);
    TwoSwings(History(w.log, path), History(w1.log, path), History(w2.log, path), Sent(w1, path), d1, d2);
    if b != [] {
      assert (a + b)[|a + b| - 1] == b[|b| - 1] && b[|b| - 1] in b;
    } else if a != [] {
      assert a + b == a && a[|a| - 1] in a;
    }
  }

  /** Whatever the status, exclusive or not, one fault-free call touches only its own file, attempts at most one
      alert and at most one resolved mail, and leaves the file as its last verdict says. */
  lemma PodCheckIsLocal(w: World, parse: Parser, pod: Pod, c: ContainerStatus, v: Visit)
    ensures
      var key, events := PodKey(pod, c), PodEvents(parse, pod, c, v);
      var w' := Run(w, events);
      var before, after := History(w.log, key), History(w'.log, key);
      && OnlyTouches(w, w', key)
      && Count(IsAlert, after) <= Count(IsAlert, before) + 1
      && Count(IsResolved, after) <= Count(IsResolved, before) + 1
      && (events == [] ==> w' == w)
      && (events != [] ==> (Sent(w', key) <==> events[|events| - 1].verdict == Faulty))
  {
    PartsAreUniform(parse, pod, c, v);
    TwoRuns(w, FirstEvents(parse, pod, c, v), SecondEvents(parse, pod, c, v), PodKey(pod, c),
            if Crashed(c.state) then Faulty else Recovered, if c.state.waiting.Some? then Faulty else Recovered);
  }

  /** Two swings in a row go in opposite directions. */
  lemma TwoSwings(h: seq<Entry>, h1: seq<Entry>, h2: seq<Entry>, sent: bool, d1: Verdict, d2: Verdict)
    requires h1 == h || (h1 == h + Swing(d1) && (sent <==> d1 == Faulty))
    requires h2 == h1 || (h2 == h1 + Swing(d2) && (sent <==> d2 != Faulty))
    ensures Count(IsAlert, h2) <= Count(IsAlert, h) + 1
    ensures Count(IsResolved, h2) <= Count(IsResolved, h) + 1
  {
    SwingCounts(h, d1);
    SwingCounts(h1, d2);
  }

  lemma SwingCounts(h: seq<Entry>, v: Verdict)
    ensures Count(IsAlert, h + Swing(v)) == Count(IsAlert, h) + (if v == Faulty then 1 else 0)
    ensures Count(IsResolved, h + Swing(v)) == Count(IsResolved, h) + (if v == Faulty then 0 else 1)
  {
    CountConcat(IsAlert, h, Swing(v));
    CountConcat(IsResolved, h, Swing(v));
    assert Swing(v)[..|Swing(v)| - 1] == if v == Faulty then [] else [Resolved(true)];
    assert [Resolved(true)][..0] == [];
  }

  /** The API promises at most one of running, waiting and terminated. */
  predicate Exclusive(s: State) {
    && (s.running ==> s.waiting.None? && s.terminated.None?)
    && (s.waiting.Some? ==> s.terminated.None?)
  }

  /** The last termination failed, at a known time more than thirty minutes ago. */
  predicate FailedLongAgo(parse: Parser, c: ContainerStatus, now: Time) {
    && c.lastTermination.Some? && c.lastTermination.value.exitCode != 0 && c.lastTermination.value.finishedAt != ""
    && parse(c.lastTermination.value.finishedAt).Some?
    && now - parse(c.lastTermination.value.finishedAt).value > 1_800_000_000_000
  }

  /** A status for which the container counts as failing at this visit: it has terminated with an error and its last
      failure is not long ago, or it waits for an image, or it waits in a crash loop with a claim whose volume cannot be
      looked up or is elsewhere, or in a crash loop as a container of the spec. */
  predicate Failing(parse: Parser, pod: Pod, c: ContainerStatus, v: Visit) {
    match c.state.waiting
    case None =>
      && c.state.terminated.Some? && c.state.terminated.value.exitCode != 0
      && !(c.restartCount > 0 && FailedLongAgo(parse, c, v.second))
    case Some(reason) =>
      || reason == "ErrImagePull" || reason == "ImagePullBackOff"
      || (reason == "CrashLoopBackOff" &&
          (((exists i :: 0 <= i < |pod.claims| && pod.claims[i].Some? && pod.claims[i].value != "") && v.pv != Attached(false)) ||
           exists i :: 0 <= i < |pod.containers| && pod.containers[i].name == c.name))
  }

  /** A status that clears the alert: after a failed termination it must be long ago; otherwise a container that has
      restarted must have terminated without an error, and one that has not must not have terminated with one. */
  predicate Healed(parse: Parser, c: ContainerStatus, v: Visit) {
    && c.state.waiting.None?
    && if c.restartCount <= 0 then c.state.terminated.Some? ==> c.state.terminated.value.exitCode == 0
       else if c.lastTermination.Some? && c.lastTermination.value.exitCode != 0 && c.lastTermination.value.finishedAt != ""
       then FailedLongAgo(parse, c, v.second)
       else c.state.terminated.Some? && c.state.terminated.value.exitCode == 0
  }

  /** Exactly what one fault-free PodCheck does to the file of the container. */
  lemma PodCheckVerdict(w: World, parse: Parser, pod: Pod, c: ContainerStatus, v: Visit)
    requires Exclusive(c.state) && v.first <= v.second
    ensures Sent(Run(w, PodEvents(parse, pod, c, v)), PodKey(pod, c)) <==>
            Failing(parse, pod, c, v) || (Sent(w, PodKey(pod, c)) && !Healed(parse, c, v))
  {
    var key := PodKey(pod, c);
    var first, second := FirstEvents(parse, pod, c, v), SecondEvents(parse, pod, c, v);
    PartsAreUniform(parse, pod, c, v);
    AlertsByNameFaulty(pod.containers, c.name, key);
    TwoVerdicts(w, first, second, key, if Crashed(c.state) then Faulty else Recovered,
                if c.state.waiting.Some? then Faulty else Recovered);
  }

  /** The second of two runs of equal verdicts decides, if it is not empty. */
  lemma TwoVerdicts(w: World, a: seq<Event>, b: seq<Event>, path: Path, d1: Verdict, d2: Verdict)
    requires AllAre(a, path, d1) && AllAre(b, path, d2)
    ensures Sent(Run(w, a + b), path) <==>
            if b != [] then d2 == Faulty else if a != [] then d1 == Faulty else Sent(w, path)
  {
    RunConcat(w, a, b);
    UniformRun(w, a, path, d1);
    UniformRun(Run(w, a), b, path, d2);
  }

  /** The same status again and again. */
  function Replay(parse: Parser, pod: Pod, c: ContainerStatus, visits: seq<Visit>): seq<Event> {
    if visits == [] then []
    else Replay(parse, pod, c, visits[..|visits| - 1]) + PodEvents(parse, pod, c, visits[|visits| - 1])
  }

  /** The clock never goes back. */
  predicate Ordered(visits: seq<Visit>) {
    && (forall i :: 0 <= i < |visits| ==> visits[i].first <= visits[i].second)
    && (forall i :: 0 < i < |visits| ==> visits[i - 1].second <= visits[i].first)
  }

  /** A crashed container that restarted after a failed termination whose end can be parsed. */
  predicate Flapping(parse: Parser, c: ContainerStatus) {
    Crashed(c.state) && c.restartCount > 0 && FailedBefore(c) && parse(c.lastTermination.value.finishedAt).Some?
  }

  /** The one verdict of an exclusive status that is not flapping. */
  function SteadyVerdict(c: ContainerStatus): Verdict {
    if Crashed(c.state) || c.state.waiting.Some? then Faulty else Recovered
  }

  lemma SteadyEvents(parse: Parser, pod: Pod, c: ContainerStatus, v: Visit)
    requires Exclusive(c.state) && !Flapping(parse, c)
    ensures AllAre(PodEvents(parse, pod, c, v), PodKey(pod, c), SteadyVerdict(c))
  {
    PartsAreUniform(parse, pod, c, v);
  }

  lemma {:induction false} ReplayIsUniform(parse: Parser, pod: Pod, c: ContainerStatus, visits: seq<Visit>)
    requires Exclusive(c.state) && !Flapping(parse, c)
    ensures AllAre(Replay(parse, pod, c, visits), PodKey(pod, c), SteadyVerdict(c))
  {
    if visits != [] {
      ReplayIsUniform(parse, pod, c, visits[..|visits| - 1]);
      SteadyEvents(parse, pod, c, visits[|visits| - 1]);
    }
  }

  lemma MailsOfSwing(h: seq<Entry>, v: Verdict)
    ensures Mails(h + Swing(v)) == Mails(h) + [v]
  {
    if v == Faulty {
      MailsStep(h, Alert(true));
    } else {
      MailsStep(h, Resolved(true));
      MailsStep(h + [Resolved(true)], Removed);
      assert h + [Resolved(true)] + [Removed] == h + Swing(v);
    }
  }

  function MailCount(w: World, path: Path): nat {
    |Mails(History(w.log, path))|
  }

  /** Equal verdicts send at most one mail. */
  lemma UniformMails(w: World, events: seq<Event>, path: Path, v: Verdict)
    requires AllAre(events, path, v)
    ensures MailCount(Run(w, events), path) <= MailCount(w, path) + 1
  {
    var h := History(w.log, path);
    UniformRun(w, events, path, v);
    MailsOfSwing(h, v);
  }

  /** At most one mail for the container, however often its status is replayed, from any world. */
  ghost predicate ResyncBounded(parse: Parser, pod: Pod, c: ContainerStatus) {
    forall w: World, visits: seq<Visit> :: Ordered(visits) ==>
      MailCount(Run(w, Replay(parse, pod, c, visits)), PodKey(pod, c)) <= MailCount(w, PodKey(pod, c)) + 1
  }

  lemma AtMostOneMail(w: World, parse: Parser, pod: Pod, c: ContainerStatus, visits: seq<Visit>)
    requires Exclusive(c.state) && !Flapping(parse, c)
    ensures MailCount(Run(w, Replay(parse, pod, c, visits)), PodKey(pod, c)) <= MailCount(w, PodKey(pod, c)) + 1
  {
    ReplayIsUniform(parse, pod, c, visits);
    UniformMails(w, Replay(parse, pod, c, visits), PodKey(pod, c), SteadyVerdict(c));
  }

  /** n visits at the same late time. */
  function LateVisits(late: Time, n: nat): (visits: seq<Visit>)
    ensures |visits| == n
  {
    seq(n, i => Visit(Attached(false), late, late))
  }

  /** One alert and one resolved mail on a path that does not hold SENT. */
  lemma UpAndDown(w: World, path: Path)
    requires !Sent(w, path)
    ensures
      var w' := Run(w, [Event(path, Faulty)] + [Event(path, Recovered)]);
      !Sent(w', path) && MailCount(w', path) == MailCount(w, path) + 2
  {
    var up, down := [Event(path, Faulty)], [Event(path, Recovered)];
    RunConcat(w, up, down);
    var w1 := Run(w, up);
    UniformRun(w, up, path, Faulty);
    UniformRun(w1, down, path, Recovered);
    MailsOfSwing(History(w.log, path), Faulty);
    MailsOfSwing(History(w1.log, path), Recovered);
  }

  /** Half an hour and more after the failed termination of a flapping container. */
  function LateTime(parse: Parser, c: ContainerStatus): Time
    requires Flapping(parse, c)
  {
    parse(c.lastTermination.value.finishedAt).value + 31 * MINUTE
  }

  lemma LateVisitEvents(parse: Parser, pod: Pod, c: ContainerStatus, n: nat)
    requires Exclusive(c.state) && Flapping(parse, c) && n > 0
    ensures
      var late, key := LateTime(parse, c), PodKey(pod, c);
      Replay(parse, pod, c, LateVisits(late, n)) ==
      Replay(parse, pod, c, LateVisits(late, n - 1)) + ([Event(key, Faulty)] + [Event(key, Recovered)])
  {
    var late := LateTime(parse, c);
    var v := Visit(Attached(false), late, late);
    assert LateVisits(late, n)[..n - 1] == LateVisits(late, n - 1);
    assert FirstEvents(parse, pod, c, v) == [Event(PodKey(pod, c), Faulty)];
    assert SecondEvents(parse, pod, c, v) == [Event(PodKey(pod, c), Recovered)];
  }

  /** A flapping container sends two mails at every visit once its timer is up. */
  lemma {:induction false} FlappingSendsTwice(parse: Parser, pod: Pod, c: ContainerStatus, n: nat)
    requires Exclusive(c.state) && Flapping(parse, c)
    ensures
      var w := Run(EMPTY, Replay(parse, pod, c, LateVisits(LateTime(parse, c), n)));
      !Sent(w, PodKey(pod, c)) && MailCount(w, PodKey(pod, c)) == 2 * n
  {
    var late, key := LateTime(parse, c), PodKey(pod, c);
    if n == 0 {
      assert Run(EMPTY, []) == EMPTY;
    } else {
      FlappingSendsTwice(parse, pod, c, n - 1);
      var events := Replay(parse, pod, c, LateVisits(late, n - 1));
      LateVisitEvents(parse, pod, c, n);
      RunConcat(EMPTY, events, [Event(key, Faulty)] + [Event(key, Recovered)]);
      UpAndDown(Run(EMPTY, events), key);
    }
  }

  /** Resync bound: replaying an unchanged status sends at most one mail exactly when the container is not flapping. */
  lemma ResyncBound(parse: Parser, pod: Pod, c: ContainerStatus)
    requires Exclusive(c.state)
    ensures ResyncBounded(parse, pod, c) <==> !Flapping(parse, c)
  {
    if Flapping(parse, c) {
      var visits := LateVisits(LateTime(parse, c), 1);
      FlappingSendsTwice(parse, pod, c, 1);
      assert Ordered(visits);
      assert MailCount(EMPTY, PodKey(pod, c)) == 0;
      assert MailCount(Run(EMPTY, Replay(parse, pod, c, visits)), PodKey(pod, c)) == 2;
    } else {
      forall w: World, visits: seq<Visit> | Ordered(visits)
        ensures MailCount(Run(w, Replay(parse, pod, c, visits)), PodKey(pod, c)) <= MailCount(w, PodKey(pod, c)) + 1
      {
        AtMostOneMail(w, parse, pod, c, visits);
      }
    }
  }

  function StatusEvents(view: View, pod: Pod, statuses: seq<ContainerStatus>): seq<Event> {
    if statuses == [] then []
    else
      var n := |statuses| - 1;
      StatusEvents(view, pod, statuses[..n]) + PodEvents(view.parse, pod, statuses[n], view.visit(pod, statuses[n]))
  }

  /** The events of a live pod: its init containers, then its containers. */
  function ContainerEvents(view: View, pod: Pod): seq<Event> {
    StatusEvents(view, pod, pod.initStatuses) + StatusEvents(view, pod, pod.statuses)
  }

  /** No two containers of the pod share a file. */
  predicate KeysDistinct(pod: Pod) {
    var all := pod.initStatuses + pod.statuses;
    forall i, j :: 0 <= i < j < |all| ==> all[i].name != all[j].name
  }

  lemma SameKeySameName(pod: Pod, c: ContainerStatus, d: ContainerStatus)
    requires PodKey(pod, c) == PodKey(pod, d)
    ensures c.name == d.name
  {
    var a, b := PodKey(pod, c).name, PodKey(pod, d).name;
    var lead := "." + pod.name + "-";
    var tail := "-" + pod.namespace + ".txt";
    assert a == lead + c.name + tail && b == lead + d.name + tail;
    assert |c.name| == |d.name|;
    assert c.name == a[|lead|..|lead| + |c.name|] == b[|lead|..|lead| + |d.name|] == d.name;
  }

  lemma PodEventsKey(parse: Parser, pod: Pod, c: ContainerStatus, v: Visit)
    ensures forall e :: e in PodEvents(parse, pod, c, v) ==> e.path == PodKey(pod, c)
  {
    PartsAreUniform(parse, pod, c, v);
  }

  lemma {:induction false} StatusEventsFor(view: View, pod: Pod, statuses: seq<ContainerStatus>, c: ContainerStatus)
    requires forall i, j :: 0 <= i < j < |statuses| ==> statuses[i].name != statuses[j].name
    requires c in statuses || forall d :: d in statuses ==> d.name != c.name
    ensures EventsFor(StatusEvents(view, pod, statuses), PodKey(pod, c)) ==
            if c in statuses then PodEvents(view.parse, pod, c, view.visit(pod, c)) else []
  {
    if statuses != [] {
      var n := |statuses| - 1;
      var init, d := statuses[..n], statuses[n];
      var events := PodEvents(view.parse, pod, d, view.visit(pod, d));
      assert d in statuses && statuses == init + [d];
      StatusEventsFor(view, pod, init, c);
      EventsForConcat(StatusEvents(view, pod, init), events, PodKey(pod, c));
      PodEventsKey(view.parse, pod, d, view.visit(pod, d));
      EventsForAll(events, PodKey(pod, c));
      if d == c {
        assert c !in init;
      } else if PodKey(pod, d) == PodKey(pod, c) {
        SameKeySameName(pod, d, c);
      }
    }
  }

  /** The events of a live pod for the file of one of its containers are those of that container. */
  lemma ContainerEventsFor(view: View, pod: Pod, c: ContainerStatus)
    requires KeysDistinct(pod) && c in pod.initStatuses + pod.statuses
    ensures EventsFor(ContainerEvents(view, pod), PodKey(pod, c)) == PodEvents(view.parse, pod, c, view.visit(pod, c))
  {
    var a, b := pod.initStatuses, pod.statuses;
    var all := a + b;
    assert forall i :: 0 <= i < |a| ==> a[i] == all[i];
    assert forall i :: 0 <= i < |b| ==> b[i] == all[|a| + i];
    StatusEventsFor(view, pod, a, c);
    StatusEventsFor(view, pod, b, c);
    EventsForConcat(StatusEvents(view, pod, a), StatusEvents(view, pod, b), PodKey(pod, c));
    var events := PodEvents(view.parse, pod, c, view.visit(pod, c));
    if c in a {
      assert c !in b && events + [] == events;
    } else {
      assert [] + events == events;
    }
  }

  lemma PodUpdateSteady(view: View, spec: Spec, pod: Pod, c: ContainerStatus)
    requires KeysDistinct(pod) && c in pod.initStatuses + pod.statuses
    requires Exclusive(c.state) && !Flapping(view.parse, c)
    ensures AllAre(EventsFor(PodUpdateEvents(view, spec, pod), PodKey(pod, c)), PodKey(pod, c), SteadyVerdict(c))
  {
    ContainerEventsFor(view, pod, c);
    SteadyEvents(view.parse, pod, c, view.visit(pod, c));
  }

  /** Exactly what one fault-free update of a pod does to the file of each of its containers. */
  lemma PodUpdateVerdict(w: World, view: View, spec: Spec, pod: Pod, c: ContainerStatus)
    requires KeysDistinct(pod) && c in pod.initStatuses + pod.statuses
    requires Exclusive(c.state) && view.visit(pod, c).first <= view.visit(pod, c).second
    ensures
      var w', key, v := Run(w, PodUpdateEvents(view, spec, pod)), PodKey(pod, c), view.visit(pod, c);
      var acts := !pod.deleting && !PodIgnored(spec, pod) && Gate(view.api) == Success(false) && !PodHeld(view, pod);
      Sent(w', key) <==>
        if acts then Failing(view.parse, pod, c, v) || (Sent(w, key) && !Healed(view.parse, c, v)) else Sent(w, key)
  {
    RunProjects(w, PodUpdateEvents(view, spec, pod), PodKey(pod, c));
    ContainerEventsFor(view, pod, c);
    PodCheckVerdict(w, view.parse, pod, c, view.visit(pod, c));
    assert Run(w, []) == w;
  }

  method CheckStatuses(ledger: Ledger, view: View, pod: Pod, statuses: seq<ContainerStatus>, spec: Spec)
    modifies ledger
    ensures ledger.Now() == Process(ledger.EnvOf(spec.suspendEmailAlert), old(ledger.Now()), StatusEvents(view, pod, statuses))
  {
    ghost var env, start := ledger.EnvOf(spec.suspendEmailAlert), ledger.Now();
    for i := 0 to |statuses|
      invariant ledger.Now() == Process(env, start, StatusEvents(view, pod, statuses[..i]))
    {
      assert statuses[..i + 1][..i] == statuses[..i];
      ProcessConcat(env, start, StatusEvents(view, pod, statuses[..i]),
                    PodEvents(view.parse, pod, statuses[i], view.visit(pod, statuses[i])));
      PodCheck(ledger, view, pod, statuses[i], spec);
    }
    assert statuses[..|statuses|] == statuses;
  }

  /** The pod handlers stay silent for this pod: it is on the ignore list, its node is affected or unknown, or a child
      policy is in progress in its namespace. */
  predicate PodIgnored(spec: Spec, pod: Pod) {
    IsIgnored(spec.ignored, "pod", "podnamespace", pod.namespace, pod.name)
  }

  predicate PodHeld(view: View, pod: Pod) {
    SingleNodeProbe(view.api, pod.nodeName) != Success(false) || view.childPolicy(pod.namespace) != Success(false)
  }

  /** Exactly the pods that are on the ignore list, one by one or with their namespace. */
  lemma PodIgnoredExactly(spec: Spec, pod: Pod)
    requires '/' !in pod.namespace && '/' !in pod.name
    ensures PodIgnored(spec, pod) <==>
            exists m :: m in spec.ignored && Covers(m, "pod", "podnamespace", pod.namespace, pod.name)
  {
    IgnoredExactly(spec.ignored, "pod", "podnamespace", pod.namespace, pod.name);
  }

  /** Exactly the pods that are not held: no child policy is in progress in the namespace, and the node can be looked up,
      is there, is schedulable and has no Ready condition that is False. */
  lemma PodHeldExactly(view: View, pod: Pod)
    ensures !PodHeld(view, pod) <==>
      && view.childPolicy(pod.namespace) == Success(false)
      && !view.api.getFails(pod.nodeName)
      && exists i :: FirstNamed(view.api.nodes, pod.nodeName, i) && !view.api.nodes[i].unschedulable &&
           Condition("Ready", "False") !in view.api.nodes[i].conditions
  {
    SingleNodeExactly(view.api, pod.nodeName);
  }

  function PodUpdateEvents(view: View, spec: Spec, pod: Pod): seq<Event> {
    if pod.deleting || PodIgnored(spec, pod) || Gate(view.api) != Success(false) || PodHeld(view, pod) then []
    else ContainerEvents(view, pod)
  }

  /** The update handler of the pod informer. converted is false when the object cannot be decoded. */
  method OnPodUpdate(ledger: Ledger, view: View, spec: Spec, converted: bool, pod: Pod)
    requires SelectorsPresent(view.api) && EntriesHaveNames(spec.ignored, "pod", pod.namespace)
    modifies ledger
    ensures ledger.Now() == Process(ledger.EnvOf(spec.suspendEmailAlert), old(ledger.Now()),
                                    if converted then PodUpdateEvents(view, spec, pod) else [])
  {
    if !converted {
      return;
    }
    if pod.deleting {
      return;
    }
    var ignored := IgnoredResource(spec.ignored, "pod", "podnamespace", pod.namespace, pod.name);
    if ignored {
      return;
    }
    var mcp := CheckMCPINProgress(view.api);
    if mcp.Failure? || mcp.value {
      return;
    }
    var affected := CheckSingleNodeReadiness(view.api, pod.nodeName);
    if affected.Failure? || affected.value {
      return;
    }
    var sameNs := view.childPolicy(pod.namespace);
    if sameNs.Failure? || sameNs.value {
      return;
    }
    ProcessConcat(ledger.EnvOf(spec.suspendEmailAlert), ledger.Now(),
                  StatusEvents(view, pod, pod.initStatuses), StatusEvents(view, pod, pod.statuses));
    CheckStatuses(ledger, view, pod, pod.initStatuses, spec);
    CheckStatuses(ledger, view, pod, pod.statuses, spec);
  }
}
