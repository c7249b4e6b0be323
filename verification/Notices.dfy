/** The informer handlers behind the machine-config gate, and runs of notifications. */
module Notices {
  import opened Basics
  import opened Alerts
  import opened Histories
  import opened Cluster
  import opened Pods
  import opened PodFiles
  import opened Nodes
  import opened Policies
  import opened Replays

  /** A cluster operator or a node network configuration policy. */
  datatype Degradable = Degradable(name: string, deleting: bool, conditions: seq<Condition>)

  /** A catalog source; state is None for a nil connection state. */
  datatype Catalog = Catalog(name: string, deleting: bool, state: Option<string>)

  /** A cluster service version. */
  datatype Csv = Csv(name: string, namespace: string, deleting: bool, phase: string)

  function PlainKey(name: string): Path {
    Path(AlertDir, "." + name + ".txt")
  }

  function DegradedEvents(conditions: seq<Condition>, key: Path): seq<Event> {
    if conditions == [] then []
    else
      var n := |conditions| - 1;
      DegradedEvents(conditions[..n], key) +
      (if conditions[n].kind != "Degraded" then []
       else [Event(key, if conditions[n].status == "True" then Faulty else Recovered)])
  }

  method ReportDegraded(ledger: Ledger, o: Degradable, spec: Spec)
    modifies ledger
    ensures ledger.Now() == Process(ledger.EnvOf(spec.suspendEmailAlert), old(ledger.Now()),
                                    DegradedEvents(o.conditions, PlainKey(o.name)))
  {
    ghost var env, start := ledger.EnvOf(spec.suspendEmailAlert), ledger.Now();
    var key := PlainKey(o.name);
    for i := 0 to |o.conditions|
      invariant ledger.Now() == Process(env, start, DegradedEvents(o.conditions[..i], key))
    {
      assert o.conditions[..i + 1][..i] == o.conditions[..i];
      ghost var before := DegradedEvents(o.conditions[..i], key);
      ProcessStep(env, start, before, Event(key, Faulty));
      ProcessStep(env, start, before, Event(key, Recovered));
      assert before + [] == before;
      if o.conditions[i].kind == "Degraded" {
        if o.conditions[i].status == "True" {
          ledger.SendEmail(Event(key, Faulty), spec.suspendEmailAlert);
        } else {
          ledger.SendEmail(Event(key, Recovered), spec.suspendEmailAlert);
        }
      }
    }
    assert o.conditions[..|o.conditions|] == o.conditions;
  }

  function CoEvents(api: Api, o: Degradable): seq<Event> {
    if o.deleting || Gate(api) != Success(false) || AllNodeProbe(api) != Success(false) then []
    else DegradedEvents(o.conditions, PlainKey(o.name))
  }

  method OnCoUpdate(ledger: Ledger, api: Api, spec: Spec, converted: bool, o: Degradable)
    requires SelectorsPresent(api)
    modifies ledger
    ensures ledger.Now() == Process(ledger.EnvOf(spec.suspendEmailAlert), old(ledger.Now()),
                                    if converted then CoEvents(api, o) else [])
  {
    if !converted || o.deleting {
      return;
    }
    var mcp := CheckMCPINProgress(api);
    if mcp.Failure? || mcp.value {
      return;
    }
    var affected := AllNodeReadiness(api);
    if affected.Failure? || affected.value {
      return;
    }
    ReportDegraded(ledger, o, spec);
  }

  function NncpEvents(api: Api, o: Degradable): seq<Event> {
    if o.deleting || Gate(api) != Success(false) then [] else DegradedEvents(o.conditions, PlainKey(o.name))
  }

  method OnNNCPUpdate(ledger: Ledger, api: Api, spec: Spec, converted: bool, o: Degradable)
    requires SelectorsPresent(api)
    modifies ledger
    ensures ledger.Now() == Process(ledger.EnvOf(spec.suspendEmailAlert), old(ledger.Now()),
                                    if converted then NncpEvents(api, o) else [])
  {
    if !converted || o.deleting {
      return;
    }
    var mcp := CheckMCPINProgress(api);
    if mcp.Failure? || mcp.value {
      return;
    }
    ReportDegraded(ledger, o, spec);
  }

  /** A nil connection state sends nothing. */
  function CatalogEvents(api: Api, p: Catalog): seq<Event> {
    if p.deleting || Gate(api) != Success(false) || p.state.None? then []
    else [Event(PlainKey(p.name), if p.state.value == "READY" then Recovered else Faulty)]
  }

  /** The operator reads the connection state of every live catalog source behind an open gate, so it must be there. */
  predicate ConnectionPresent(api: Api, p: Catalog) {
    !p.deleting && Gate(api) == Success(false) ==> p.state.Some?
  }

  method OnCatalogSourceUpdate(ledger: Ledger, api: Api, spec: Spec, converted: bool, p: Catalog)
    requires SelectorsPresent(api) && (converted ==> ConnectionPresent(api, p))
    modifies ledger
    ensures ledger.Now() == Process(ledger.EnvOf(spec.suspendEmailAlert), old(ledger.Now()),
                                    if converted then CatalogEvents(api, p) else [])
  {
    if !converted || p.deleting {
      return;
    }
    var mcp := CheckMCPINProgress(api);
    if mcp.Failure? || mcp.value {
      return;
    }
    var e := Event(PlainKey(p.name), if p.state.value != "READY" then Faulty else Recovered);
    ProcessOne(ledger.EnvOf(spec.suspendEmailAlert), ledger.Now(), e);
    ledger.SendEmail(e, spec.suspendEmailAlert);
  }

  function CsvEvents(view: View, p: Csv): seq<Event> {
    if p.deleting || Gate(view.api) != Success(false) || view.childPolicy(p.namespace) != Success(false) then []
    else [Event(PlainKey(p.name), if p.phase == "Succeeded" then Recovered else Faulty)]
  }

  method OnCsvUpdate(ledger: Ledger, view: View, spec: Spec, converted: bool, p: Csv)
    requires SelectorsPresent(view.api)
    modifies ledger
    ensures ledger.Now() == Process(ledger.EnvOf(spec.suspendEmailAlert), old(ledger.Now()),
                                    if converted then CsvEvents(view, p) else [])
  {
    if !converted || p.deleting {
      return;
    }
    var mcp := CheckMCPINProgress(view.api);
    if mcp.Failure? || mcp.value {
      return;
    }
    var pol := view.childPolicy(p.namespace);
    if pol.Failure? || pol.value {
      return;
    }
    var e := Event(PlainKey(p.name), if p.phase != "Succeeded" then Faulty else Recovered);
    ProcessOne(ledger.EnvOf(spec.suspendEmailAlert), ledger.Now(), e);
    ledger.SendEmail(e, spec.suspendEmailAlert);
  }

  /** A notification together with the cluster as its handler sees it. */
  datatype Notice =
    | CoNotice(view: View, operator: Degradable)
    | NncpNotice(view: View, operator: Degradable)
    | CatalogNotice(view: View, catalog: Catalog)
    | CsvNotice(view: View, csv: Csv)
    | PodNotice(view: View, pod: Pod)
    | PodDeletion(view: View, pod: Pod, listing: seq<string>)
    | NodeNotice(node: Node)
    | PolicyNotice(seen: Seen)

  function NoticeEvents(spec: Spec, n: Notice): seq<Event> {
    match n
    case CoNotice(view, o) => CoEvents(view.api, o)
    case NncpNotice(view, o) => NncpEvents(view.api, o)
    case CatalogNotice(view, p) => CatalogEvents(view.api, p)
    case CsvNotice(view, p) => CsvEvents(view, p)
    case PodNotice(view, pod) => PodUpdateEvents(view, spec, pod)
    case PodDeletion(view, pod, listing) => PodDeleteEvents(view, listing, pod)
    case NodeNotice(node) => NodeEvents(node)
    case PolicyNotice(seen) => PolicyUpdateEvents(spec, seen)
  }

  predicate Gated(n: Notice) {
    !n.NodeNotice? && !n.PolicyNotice?
  }

  /** The gate of this notice answers that an update is in progress, or fails. */
  predicate Shut(n: Notice) {
    Gated(n) && Gate(n.view.api) != Success(false)
  }

  function NoticeHandler(spec: Spec): Notice -> seq<Event> {
    n => NoticeEvents(spec, n)
  }

  /** The notices whose gate is not shut, in order. */
  function Heard(notices: seq<Notice>): seq<Notice> {
    if notices == [] then []
    else
      var last := notices[|notices| - 1];
      Heard(notices[..|notices| - 1]) + (if Shut(last) then [] else [last])
  }

  /** A shut gate silences: any run, with mail on or off and whatever fails, has the effect of the run without the
      notices whose gate is shut. */
  lemma {:induction false} ShutGateSilences(env: Env, s: Session, spec: Spec, notices: seq<Notice>)
    ensures ProcessEach(env, s, NoticeHandler(spec), notices) ==
            ProcessEach(env, s, NoticeHandler(spec), Heard(notices))
  {
    if notices != [] {
      var init, last := notices[..|notices| - 1], notices[|notices| - 1];
      ShutGateSilences(env, s, spec, init);
      if Shut(last) {
        assert NoticeEvents(spec, last) == [];
        assert Heard(notices) == Heard(init);
      } else {
        assert (Heard(init) + [last])[..|Heard(init)|] == Heard(init);
      }
    }
  }

  /** An update of this pod, decoded with this parser. */
  ghost predicate Reports(n: Notice, parse: Parser, pod: Pod) {
    n.PodNotice? && n.pod == pod && n.view.parse == parse
  }

  ghost predicate Avoids(spec: Spec, n: Notice, path: Path) {
    forall e :: e in NoticeEvents(spec, n) ==> e.path != path
  }

  lemma {:induction false} TrafficIsSteady(spec: Spec, notices: seq<Notice>, parse: Parser, pod: Pod, c: ContainerStatus)
    requires forall n :: n in notices ==> Reports(n, parse, pod) || Avoids(spec, n, PodKey(pod, c))
    requires KeysDistinct(pod) && c in pod.initStatuses + pod.statuses
    requires Exclusive(c.state) && !Flapping(parse, c)
    ensures AllAre(EventsFor(FlatMap(NoticeHandler(spec), notices), PodKey(pod, c)), PodKey(pod, c), SteadyVerdict(c))
  {
    if notices != [] {
      var init, last := notices[..|notices| - 1], notices[|notices| - 1];
      assert last in notices && forall n :: n in init ==> n in notices;
      TrafficIsSteady(spec, init, parse, pod, c);
      EventsForConcat(FlatMap(NoticeHandler(spec), init), NoticeEvents(spec, last), PodKey(pod, c));
      if Reports(last, parse, pod) {
        PodUpdateSteady(last.view, spec, pod, c);
      } else {
        EventsForAll(NoticeEvents(spec, last), PodKey(pod, c));
      }
    }
  }

  /** Resync bound in traffic: in any fault-free run of notices, however often a pod with an unchanged status is reported,
      at whatever times, whatever the gate, the nodes and the volumes answer each time, and whatever else happens to
      other files, a container that is not flapping gets at most one mail in all. */
  lemma ResyncBoundInTraffic(env: Env, s: Session, spec: Spec, notices: seq<Notice>, parse: Parser, pod: Pod, c: ContainerStatus)
    requires FaultFree(env)
    requires forall n :: n in notices ==> Reports(n, parse, pod) || Avoids(spec, n, PodKey(pod, c))
    requires KeysDistinct(pod) && c in pod.initStatuses + pod.statuses
    requires Exclusive(c.state) && !Flapping(parse, c)
    ensures MailCount(ProcessEach(env, s, NoticeHandler(spec), notices).world, PodKey(pod, c)) <=
            MailCount(s.world, PodKey(pod, c)) + 1
  {
    var events := FlatMap(NoticeHandler(spec), notices);
    ProcessFlatMap(env, s, NoticeHandler(spec), notices);
    ProcessFaultFree(env, s, events);
    RunProjects(s.world, events, PodKey(pod, c));
    TrafficIsSteady(spec, notices, parse, pod, c);
    UniformMails(s.world, EventsFor(events, PodKey(pod, c)), PodKey(pod, c), SteadyVerdict(c));
  }

  lemma {:induction false} NothingHeard(notices: seq<Notice>)
    requires forall n :: n in notices ==> Shut(n)
    ensures Heard(notices) == []
  {
    if notices != [] {
      assert notices[|notices| - 1] in notices;
      NothingHeard(notices[..|notices| - 1]);
    }
  }

  /** While every gate is shut, the gated handlers leave the ledger and the mails as they are. */
  lemma AllShutAllSilent(env: Env, s: Session, spec: Spec, notices: seq<Notice>)
    requires forall n :: n in notices ==> Shut(n)
    ensures ProcessEach(env, s, NoticeHandler(spec), notices) == s
  {
    ShutGateSilences(env, s, spec, notices);
    NothingHeard(notices);
  }

  /** The last Degraded condition, if there is one, is at this position. */
  predicate LastDegraded(conditions: seq<Condition>, i: int) {
    0 <= i < |conditions| && conditions[i].kind == "Degraded" &&
    forall j :: i < j < |conditions| ==> conditions[j].kind != "Degraded"
  }

  lemma {:induction false} DegradedRun(w: World, conditions: seq<Condition>, key: Path)
    ensures
      var w' := Run(w, DegradedEvents(conditions, key));
      && OnlyTouches(w, w', key)
      && (Sent(w', key) <==>
           (exists i :: LastDegraded(conditions, i) && conditions[i].status == "True") ||
           (Sent(w, key) && forall i :: 0 <= i < |conditions| ==> conditions[i].kind != "Degraded"))
  {
    if conditions == [] {
      assert Run(w, []) == w;
    } else {
      var n := |conditions| - 1;
      var before := DegradedEvents(conditions[..n], key);
      DegradedRun(w, conditions[..n], key);
      DegradedStep(conditions);
      if conditions[n].kind == "Degraded" {
        var e := Event(key, if conditions[n].status == "True" then Faulty else Recovered);
        RunStep(w, before, e);
        OneEvent(Run(w, before), e);
        forall other | other != key
          ensures Agree(Run(w, before), Run(w, before + [e]), other)
        {
          DeliverFrame(Run(w, before), Call(e, NO_FAULTS), other);
        }
        OnlyTouchesTransitive(w, Run(w, before), Run(w, before + [e]), key);
      } else {
        assert DegradedEvents(conditions, key) == before;
      }
    }
  }

  lemma DegradedStep(conditions: seq<Condition>)
    requires conditions != []
    ensures
      var n := |conditions| - 1;
      if conditions[n].kind == "Degraded" then LastDegraded(conditions, n) && forall i :: LastDegraded(conditions, i) ==> i == n
      else && (forall i :: LastDegraded(conditions, i) <==> LastDegraded(conditions[..n], i))
           && ((forall i :: 0 <= i < |conditions| ==> conditions[i].kind != "Degraded") <==>
               (forall i :: 0 <= i < n ==> conditions[..n][i].kind != "Degraded"))
  {
    var init := conditions[..|conditions| - 1];
    assert forall i :: 0 <= i < |init| ==> init[i] == conditions[i];
  }

  /** Exactly what the operator handler does, behind its three guards, when nothing fails: the last Degraded condition
      decides. */
  lemma CoVerdict(w: World, api: Api, o: Degradable)
    ensures
      var w', key := Run(w, CoEvents(api, o)), Path(AlertDir, "." + o.name + ".txt");
      var acts := !o.deleting && Gate(api) == Success(false) && !api.listFails(map[]) &&
        forall n :: n in api.nodes ==> Usable(n);
      && OnlyTouches(w, w', key)
      && (Sent(w', key) <==> if acts then DegradedNow(o, Sent(w, key)) else Sent(w, key))
  {
    DegradedRun(w, o.conditions, PlainKey(o.name));
    assert Run(w, []) == w;
    forall n
      ensures Usable(n) <==> !NotKnownReady(n)
    {
    }
  }

  /** A schedulable node all of whose Ready conditions are True. */
  predicate Usable(n: Node) {
    !n.unschedulable && forall i :: 0 <= i < |n.conditions| && n.conditions[i].kind == "Ready" ==> n.conditions[i].status == "True"
  }

  ghost predicate DegradedNow(o: Degradable, before: bool) {
    || (exists i :: LastDegraded(o.conditions, i) && o.conditions[i].status == "True")
    || (before && forall i :: 0 <= i < |o.conditions| ==> o.conditions[i].kind != "Degraded")
  }

  /** The same for network policies, which do not look at the nodes. */
  lemma NncpVerdict(w: World, api: Api, o: Degradable)
    ensures
      var w', key := Run(w, NncpEvents(api, o)), Path(AlertDir, "." + o.name + ".txt");
      && OnlyTouches(w, w', key)
      && (Sent(w', key) <==>
           if !o.deleting && Gate(api) == Success(false) then DegradedNow(o, Sent(w, key)) else Sent(w, key))
  {
    DegradedRun(w, o.conditions, PlainKey(o.name));
    assert Run(w, []) == w;
  }

  /** Exactly what the catalog handler does when nothing fails, and that it mails at most once. */
  lemma CatalogVerdict(w: World, api: Api, p: Catalog)
    ensures
      var w', key := Run(w, CatalogEvents(api, p)), Path(AlertDir, "." + p.name + ".txt");
      && OnlyTouches(w, w', key) && MailCount(w', key) <= MailCount(w, key) + 1
      && (Sent(w', key) <==>
           if !p.deleting && Gate(api) == Success(false) && p.state.Some? then p.state.value != "READY" else Sent(w, key))
  {
    var v := if p.state == Some("READY") then Recovered else Faulty;
    UniformRun(w, CatalogEvents(api, p), PlainKey(p.name), v);
    UniformMails(w, CatalogEvents(api, p), PlainKey(p.name), v);
  }

  /** Exactly what the service-version handler does when nothing fails, and that it mails at most once. */
  lemma CsvVerdict(w: World, view: View, p: Csv)
    ensures
      var w', key := Run(w, CsvEvents(view, p)), Path(AlertDir, "." + p.name + ".txt");
      && OnlyTouches(w, w', key) && MailCount(w', key) <= MailCount(w, key) + 1
      && (Sent(w', key) <==>
           if !p.deleting && Gate(view.api) == Success(false) && view.childPolicy(p.namespace) == Success(false)
           then p.phase != "Succeeded" else Sent(w, key))
  {
    var v := if p.phase == "Succeeded" then Recovered else Faulty;
    UniformRun(w, CsvEvents(view, p), PlainKey(p.name), v);
    UniformMails(w, CsvEvents(view, p), PlainKey(p.name), v);
  }

  lemma {:induction false} DegradedMembers(conditions: seq<Condition>, key: Path)
    ensures Event(key, Faulty) in DegradedEvents(conditions, key) <==> Condition("Degraded", "True") in conditions
    ensures Event(key, Recovered) in DegradedEvents(conditions, key) <==>
            exists i :: 0 <= i < |conditions| && conditions[i].kind == "Degraded" && conditions[i].status != "True"
  {
    if conditions != [] {
      var init := conditions[..|conditions| - 1];
      DegradedMembers(init, key);
      assert conditions == init + [conditions[|conditions| - 1]];
      assert forall i :: 0 <= i < |init| ==> init[i] == conditions[i];
    }
  }

  /** Resync bound for operators and network policies: unchanged conditions send at most one mail in all if and only if they
      do not report Degraded both as True and as something else. */
  lemma DegradedResyncBound(conditions: seq<Condition>, key: Path)
    ensures Quiet(DegradedEvents(conditions, key), key) <==>
            !(Condition("Degraded", "True") in conditions &&
              exists i :: 0 <= i < |conditions| && conditions[i].kind == "Degraded" && conditions[i].status != "True")
  {
    DegradedMembers(conditions, key);
    QuietExactly(DegradedEvents(conditions, key), key);
  }
}
