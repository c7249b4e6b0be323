/** The node handlers: the informer handler for one node and the hub scan over all nodes. */
module Nodes {
  import opened Basics
  import opened Alerts
  import opened Cluster
  import opened Histories
  import opened Pods
  import opened Replays

  function McpIssueKey(n: Node): Path { Path(AlertDir, "." + n.name + "-mcp-issue.txt") }
  function SchedKey(n: Node): Path { Path(AlertDir, "." + n.name + "-sched.txt") }
  function ReadyKey(n: Node): Path { Path(AlertDir, "." + n.name + "-ready.txt") }

  predicate HasState(n: Node, s: string) {
    STATE_ANNOTATION in n.annotations && n.annotations[STATE_ANNOTATION] == s
  }

  /** The state annotation says that the update goes on without trouble. */
  predicate Progressing(n: Node) {
    HasState(n, "Working") || HasState(n, "Rebooting")
  }

  /** The state annotation says that the update is stuck. */
  predicate Stuck(n: Node) {
    HasState(n, "Degraded") || HasState(n, "Unreconcilable")
  }

  /** The events for the Ready conditions, in order. */
  function ReadyEvents(conditions: seq<Condition>, key: Path): seq<Event> {
    if conditions == [] then []
    else
      var i := |conditions| - 1;
      ReadyEvents(conditions[..i], key) +
      (if conditions[i] == Condition("Ready", "False") then [Event(key, Faulty)]
       else if conditions[i] == Condition("Ready", "True") then [Event(key, Recovered)]
       else [])
  }

  function AnnotationEvents(n: Node): seq<Event> {
    if Stuck(n) then [Event(McpIssueKey(n), Faulty)]
    else if HasState(n, DONE) then [Event(McpIssueKey(n), Recovered)]
    else []
  }

  function SchedulingEvents(n: Node): seq<Event> {
    if n.unschedulable then [Event(SchedKey(n), Faulty)]
    else [Event(SchedKey(n), Recovered)] + ReadyEvents(n.conditions, ReadyKey(n))
  }

  /** What the informer handler does for one node. */
  function NodeEvents(n: Node): seq<Event> {
    if n.deleting || Progressing(n) then []
    else AnnotationEvents(n) + (if Stuck(n) then [] else SchedulingEvents(n))
  }

  method ReportReady(ledger: Ledger, n: Node, spec: Spec)
    modifies ledger
    ensures ledger.Now() == Process(ledger.EnvOf(spec.suspendEmailAlert), old(ledger.Now()),
                                    ReadyEvents(n.conditions, ReadyKey(n)))
  {
    ghost var env, start := ledger.EnvOf(spec.suspendEmailAlert), ledger.Now();
    for i := 0 to |n.conditions|
      invariant ledger.Now() == Process(env, start, ReadyEvents(n.conditions[..i], ReadyKey(n)))
    {
      assert n.conditions[..i + 1][..i] == n.conditions[..i];
      ghost var before := ReadyEvents(n.conditions[..i], ReadyKey(n));
      ProcessStep(env, start, before, Event(ReadyKey(n), Faulty));
      ProcessStep(env, start, before, Event(ReadyKey(n), Recovered));
      assert before + [] == before;
      var cond := n.conditions[i];
      if cond.kind == "Ready" && cond.status == "False" {
        ledger.SendEmail(Event(ReadyKey(n), Faulty), spec.suspendEmailAlert);
      } else if cond.kind == "Ready" && cond.status == "True" {
        ledger.SendEmail(Event(ReadyKey(n), Recovered), spec.suspendEmailAlert);
      }
    }
    assert n.conditions[..|n.conditions|] == n.conditions;
  }

  /** The update handler of the node informer. */
  method OnNodeUpdate(ledger: Ledger, spec: Spec, converted: bool, n: Node)
    modifies ledger
    ensures ledger.Now() == Process(ledger.EnvOf(spec.suspendEmailAlert), old(ledger.Now()),
                                    if converted then NodeEvents(n) else [])
  {
    ghost var env, start := ledger.EnvOf(spec.suspendEmailAlert), ledger.Now();
    if !converted || n.deleting {
      return;
    }
    ProcessOne(env, start, Event(McpIssueKey(n), Faulty));
    ProcessOne(env, start, Event(McpIssueKey(n), Recovered));
    var todo := n.annotations.Keys;
    while todo != {}
      invariant todo <= n.annotations.Keys
      invariant STATE_ANNOTATION in todo ==> ledger.Now() == start
      invariant STATE_ANNOTATION !in todo ==>
        !Progressing(n) && !Stuck(n) && ledger.Now() == Process(env, start, AnnotationEvents(n))
      decreases todo
    {
      var anno :| anno in todo;
      todo := todo - {anno};
      if anno == STATE_ANNOTATION {
        var val := n.annotations[anno];
        if val != DONE {
          if val == "Working" || val == "Rebooting" {
            return;
          } else if val == "Degraded" || val == "Unreconcilable" {
            ledger.SendEmail(Event(McpIssueKey(n), Faulty), spec.suspendEmailAlert);
            assert NodeEvents(n) == [Event(McpIssueKey(n), Faulty)];
            return;
          }
        } else {
          ledger.SendEmail(Event(McpIssueKey(n), Recovered), spec.suspendEmailAlert);
        }
      }
    }
    ghost var middle := ledger.Now();
    ProcessConcat(env, start, AnnotationEvents(n), SchedulingEvents(n));
    ProcessOne(env, middle, Event(SchedKey(n), Faulty));
    ProcessOne(env, middle, Event(SchedKey(n), Recovered));
    if n.unschedulable {
      ledger.SendEmail(Event(SchedKey(n), Faulty), spec.suspendEmailAlert);
      return;
    } else {
      ledger.SendEmail(Event(SchedKey(n), Recovered), spec.suspendEmailAlert);
    }
    ProcessConcat(env, middle, [Event(SchedKey(n), Recovered)], ReadyEvents(n.conditions, ReadyKey(n)));
    ReportReady(ledger, n, spec);
  }

  /** The hub scan ends at a live node that is updating, stuck or unschedulable. */
  predicate EndsScan(n: Node) {
    !n.deleting && (Progressing(n) || Stuck(n) || n.unschedulable)
  }

  /** How many nodes the hub scan reaches. */
  function Reached(nodes: seq<Node>): (k: nat)
    ensures k <= |nodes|
  {
    if nodes == [] then 0 else if EndsScan(nodes[0]) then 1 else 1 + Reached(nodes[1..])
  }

  /** The state that the machine-config daemon reports for the node; empty if it reports none. */
  function UpdateState(n: Node): string {
    if "machineconfiguration.openshift.io/state" in n.annotations
    then n.annotations["machineconfiguration.openshift.io/state"] else ""
  }

  /** A live node that is unschedulable or whose update is under way or stuck. */
  predicate Halts(n: Node) {
    !n.deleting && (n.unschedulable || UpdateState(n) in {"Working", "Rebooting", "Degraded", "Unreconcilable"})
  }

  /** The prefix reached is the shortest one that ends with a live node that is unschedulable or in one of four states, or
      the whole list. */
  lemma {:induction false} ReachedExact(nodes: seq<Node>)
    ensures
      var k := Reached(nodes);
      && (forall i :: 0 <= i < k - 1 ==> !Halts(nodes[i]))
      && (k < |nodes| ==> k > 0 && Halts(nodes[k - 1]))
  {
    if nodes != [] && !EndsScan(nodes[0]) {
      ReachedExact(nodes[1..]);
    }
  }

  /** One node of the hub scan. */
  method ScanOne(ledger: Ledger, n: Node, spec: Spec) returns (stop: bool)
    modifies ledger
    ensures stop <==> EndsScan(n)
    ensures ledger.Now() == Process(ledger.EnvOf(spec.suspendEmailAlert), old(ledger.Now()), NodeEvents(n))
  {
    ghost var env, start := ledger.EnvOf(spec.suspendEmailAlert), ledger.Now();
    if n.deleting {
      return false;
    }
    ProcessOne(env, start, Event(McpIssueKey(n), Faulty));
    ProcessOne(env, start, Event(McpIssueKey(n), Recovered));
    var todo := n.annotations.Keys;
    while todo != {}
      invariant todo <= n.annotations.Keys
      invariant STATE_ANNOTATION in todo ==> ledger.Now() == start
      invariant STATE_ANNOTATION !in todo ==>
        !Progressing(n) && !Stuck(n) && ledger.Now() == Process(env, start, AnnotationEvents(n))
      decreases todo
    {
      var anno :| anno in todo;
      todo := todo - {anno};
      if anno == STATE_ANNOTATION {
        var val := n.annotations[anno];
        if val != DONE {
          if val == "Working" || val == "Rebooting" {
            return true;
          } else if val == "Degraded" || val == "Unreconcilable" {
            ledger.SendEmail(Event(McpIssueKey(n), Faulty), spec.suspendEmailAlert);
            assert NodeEvents(n) == [Event(McpIssueKey(n), Faulty)];
            return true;
          }
        } else {
          ledger.SendEmail(Event(McpIssueKey(n), Recovered), spec.suspendEmailAlert);
        }
      }
    }
    ghost var middle := ledger.Now();
    ProcessConcat(env, start, AnnotationEvents(n), SchedulingEvents(n));
    ProcessOne(env, middle, Event(SchedKey(n), Faulty));
    ProcessOne(env, middle, Event(SchedKey(n), Recovered));
    if n.unschedulable {
      ledger.SendEmail(Event(SchedKey(n), Faulty), spec.suspendEmailAlert);
      return true;
    } else {
      ledger.SendEmail(Event(SchedKey(n), Recovered), spec.suspendEmailAlert);
    }
    ProcessConcat(env, middle, [Event(SchedKey(n), Recovered)], ReadyEvents(n.conditions, ReadyKey(n)));
    ReportReady(ledger, n, spec);
    return false;
  }

  /** The hub scan: the informer handler applied, node by node, to the nodes reached. nodeList is Failure when the query
      fails. */
  method OnNodeUpdateHub(ledger: Ledger, spec: Spec, nodeList: Result<seq<Node>>)
    modifies ledger
    ensures nodeList.Failure? ==> ledger.Now() == old(ledger.Now())
    ensures nodeList.Success? ==>
      ledger.Now() == ProcessEach(ledger.EnvOf(spec.suspendEmailAlert), old(ledger.Now()), NodeEvents,
                                  nodeList.value[..Reached(nodeList.value)])
  {
    ghost var env, start := ledger.EnvOf(spec.suspendEmailAlert), ledger.Now();
    if nodeList.Failure? {
      return;
    }
    var nodes := nodeList.value;
    for i := 0 to |nodes|
      invariant Reached(nodes) == i + Reached(nodes[i..])
      invariant ledger.Now() == ProcessEach(env, start, NodeEvents, nodes[..i])
    {
      assert nodes[..i + 1][..i] == nodes[..i] && nodes[i..][1..] == nodes[i + 1..];
      var stop := ScanOne(ledger, nodes[i], spec);
      if stop {
        return;
      }
    }
    assert nodes[..|nodes|] == nodes;
  }

  lemma KeysDiffer(n: Node)
    ensures McpIssueKey(n) != SchedKey(n) && McpIssueKey(n) != ReadyKey(n) && SchedKey(n) != ReadyKey(n)
  {
    var a, b, c := McpIssueKey(n).name, SchedKey(n).name, ReadyKey(n).name;
    assert a[|a| - 5] == 'e' && b[|b| - 5] == 'd' && c[|c| - 5] == 'y';
  }

  /** The last Ready condition that is True or False has this status. */
  predicate LastReadyIs(conditions: seq<Condition>, status: string) {
    exists i :: 0 <= i < |conditions| && conditions[i] == Condition("Ready", status) &&
      forall j :: i < j < |conditions| ==>
        conditions[j] != Condition("Ready", "True") && conditions[j] != Condition("Ready", "False")
  }

  lemma LastReadyStep(conditions: seq<Condition>, status: string)
    requires conditions != []
    ensures
      var n := |conditions| - 1;
      var last := conditions[n];
      LastReadyIs(conditions, status) <==>
        || last == Condition("Ready", status)
        || (last != Condition("Ready", "True") && last != Condition("Ready", "False") && LastReadyIs(conditions[..n], status))
  {
    var n := |conditions| - 1;
    var init := conditions[..n];
    assert forall i :: 0 <= i < n ==> init[i] == conditions[i];
    if i :| 0 <= i < n && init[i] == Condition("Ready", status) && forall j :: i < j < n ==>
        init[j] != Condition("Ready", "True") && init[j] != Condition("Ready", "False") {
      assert conditions[i] == Condition("Ready", status);
      if conditions[n] != Condition("Ready", "True") && conditions[n] != Condition("Ready", "False") {
        assert forall j :: i < j < |conditions| ==>
          conditions[j] != Condition("Ready", "True") && conditions[j] != Condition("Ready", "False");
      }
    }
  }

  lemma {:induction false} ReadyRun(w: World, conditions: seq<Condition>, key: Path)
    ensures forall e :: e in ReadyEvents(conditions, key) ==> e.path == key
    ensures Sent(Run(w, ReadyEvents(conditions, key)), key) <==>
            LastReadyIs(conditions, "False") || (Sent(w, key) && !LastReadyIs(conditions, "True"))
  {
    if conditions == [] {
      assert Run(w, []) == w;
    } else {
      var n := |conditions| - 1;
      var before := ReadyEvents(conditions[..n], key);
      ReadyRun(w, conditions[..n], key);
      LastReadyStep(conditions, "False");
      LastReadyStep(conditions, "True");
      RunStep(w, before, Event(key, Faulty));
      RunStep(w, before, Event(key, Recovered));
      OneEvent(Run(w, before), Event(key, Faulty));
      OneEvent(Run(w, before), Event(key, Recovered));
      assert before + [] == before;
    }
  }

  lemma SchedulingRun(w: World, n: Node)
    ensures
      var w' := Run(w, SchedulingEvents(n));
      && Agree(w, w', McpIssueKey(n))
      && (Sent(w', SchedKey(n)) <==> n.unschedulable)
      && (Sent(w', ReadyKey(n)) <==>
           if n.unschedulable then Sent(w, ReadyKey(n))
           else LastReadyIs(n.conditions, "False") || (Sent(w, ReadyKey(n)) && !LastReadyIs(n.conditions, "True")))
  {
    KeysDiffer(n);
    var first := [Event(SchedKey(n), if n.unschedulable then Faulty else Recovered)];
    var rest := if n.unschedulable then [] else ReadyEvents(n.conditions, ReadyKey(n));
    assert SchedulingEvents(n) == first + rest;
    RunConcat(w, first, rest);
    var w1 := Run(w, first);
    UniformRun(w, first, SchedKey(n), first[0].verdict);
    ReadyRun(w1, n.conditions, ReadyKey(n));
    RunFrame(w1, rest, SchedKey(n));
    RunFrame(w, SchedulingEvents(n), McpIssueKey(n));
    RunFrame(w, first, ReadyKey(n));
    assert Run(w1, []) == w1;
  }

  /** The handler looks at the node: it is live and not in an update without trouble. */
  predicate LooksAt(n: Node) {
    !n.deleting && UpdateState(n) != "Working" && UpdateState(n) != "Rebooting"
  }

  /** The handler reports the node's update as stuck, and nothing else. */
  predicate ReportsStuck(n: Node) {
    LooksAt(n) && (UpdateState(n) == "Degraded" || UpdateState(n) == "Unreconcilable")
  }

  /** Exactly what the informer handler does to the three files of a node when nothing fails. */
  lemma NodeVerdict(w: World, n: Node)
    ensures
      var w' := Run(w, NodeEvents(n));
      var mcp, sched, ready := Path(AlertDir, "." + n.name + "-mcp-issue.txt"), Path(AlertDir, "." + n.name + "-sched.txt"),
                               Path(AlertDir, "." + n.name + "-ready.txt");
      var goesOn := LooksAt(n) && !ReportsStuck(n);
      && (Sent(w', mcp) <==> ReportsStuck(n) || (Sent(w, mcp) && !(LooksAt(n) && UpdateState(n) == "Done")))
      && (Sent(w', sched) <==> if goesOn then n.unschedulable else Sent(w, sched))
      && (Sent(w', ready) <==>
           if goesOn && !n.unschedulable
           then LastReadyIs(n.conditions, "False") || (Sent(w, ready) && !LastReadyIs(n.conditions, "True"))
           else Sent(w, ready))
  {
    KeysDiffer(n);
    assert Run(w, []) == w;
    if !n.deleting && !Progressing(n) {
      var first, rest := AnnotationEvents(n), if Stuck(n) then [] else SchedulingEvents(n);
      RunConcat(w, first, rest);
      var w1 := Run(w, first);
      UniformRun(w, first, McpIssueKey(n), if Stuck(n) then Faulty else Recovered);
      RunFrame(w, first, SchedKey(n));
      RunFrame(w, first, ReadyKey(n));
      SchedulingRun(w1, n);
      assert Run(w1, []) == w1;
    }
  }

  lemma {:induction false} ReadyMembers(conditions: seq<Condition>, key: Path)
    ensures forall e :: e in ReadyEvents(conditions, key) ==> e.path == key
    ensures Event(key, Faulty) in ReadyEvents(conditions, key) <==> Condition("Ready", "False") in conditions
    ensures Event(key, Recovered) in ReadyEvents(conditions, key) <==> Condition("Ready", "True") in conditions
  {
    if conditions != [] {
      var init := conditions[..|conditions| - 1];
      ReadyMembers(init, key);
      assert conditions == init + [conditions[|conditions| - 1]];
    }
  }

  /** One run of the handler leaves every file but the three of the node alone. */
  lemma NodeTouchesThree(w: World, n: Node, path: Path)
    requires path != Path(AlertDir, "." + n.name + "-mcp-issue.txt") && path != Path(AlertDir, "." + n.name + "-sched.txt")
    requires path != Path(AlertDir, "." + n.name + "-ready.txt")
    ensures Agree(w, Run(w, NodeEvents(n)), path)
  {
    ReadyMembers(n.conditions, ReadyKey(n));
    RunFrame(w, NodeEvents(n), path);
  }

  /** The handler reports both readiness and unreadiness of the node. */
  predicate Contradicts(n: Node) {
    && LooksAt(n) && !ReportsStuck(n) && !n.unschedulable
    && Condition("Ready", "True") in n.conditions && Condition("Ready", "False") in n.conditions
  }

  /** The handler sends both verdicts for at most one of the three files, and for that one exactly when it contradicts
      itself. */
  lemma NodeSends(n: Node)
    ensures !(Event(McpIssueKey(n), Faulty) in NodeEvents(n) && Event(McpIssueKey(n), Recovered) in NodeEvents(n))
    ensures !(Event(SchedKey(n), Faulty) in NodeEvents(n) && Event(SchedKey(n), Recovered) in NodeEvents(n))
    ensures Contradicts(n) <==> Event(ReadyKey(n), Faulty) in NodeEvents(n) && Event(ReadyKey(n), Recovered) in NodeEvents(n)
  {
    KeysDiffer(n);
    ReadyMembers(n.conditions, ReadyKey(n));
    NodeMember(n, Event(McpIssueKey(n), Faulty));
    NodeMember(n, Event(McpIssueKey(n), Recovered));
    NodeMember(n, Event(SchedKey(n), Faulty));
    NodeMember(n, Event(SchedKey(n), Recovered));
    NodeMember(n, Event(ReadyKey(n), Faulty));
    NodeMember(n, Event(ReadyKey(n), Recovered));
  }

  /** Exactly the events of the handler. */
  lemma NodeMember(n: Node, e: Event)
    ensures e in NodeEvents(n) <==>
            && LooksAt(n)
            && if ReportsStuck(n) then e == Event(McpIssueKey(n), Faulty)
               else || (UpdateState(n) == "Done" && e == Event(McpIssueKey(n), Recovered))
                    || (n.unschedulable && e == Event(SchedKey(n), Faulty))
                    || (!n.unschedulable && e == Event(SchedKey(n), Recovered))
                    || (!n.unschedulable && e in ReadyEvents(n.conditions, ReadyKey(n)))
  {
  }

  lemma SilentIsQuiet(events: seq<Event>, path: Path)
    requires forall e :: e in events ==> e.path != path
    ensures Quiet(events, path)
  {
    SteadyIsQuiet(events, path, Faulty);
  }

  /** Resync bound for nodes: an unchanged node that is reported any number of times sends at most one mail for every file,
      from any world, if and only if the handler does not find it both ready and not ready. */
  lemma NodeResyncBound(n: Node)
    ensures (forall path :: Quiet(NodeEvents(n), path)) <==> !Contradicts(n)
  {
    NodeSends(n);
    QuietExactly(NodeEvents(n), McpIssueKey(n));
    QuietExactly(NodeEvents(n), SchedKey(n));
    QuietExactly(NodeEvents(n), ReadyKey(n));
    ReadyMembers(n.conditions, ReadyKey(n));
    forall path | path != McpIssueKey(n) && path != SchedKey(n) && path != ReadyKey(n)
      ensures Quiet(NodeEvents(n), path)
    {
      SilentIsQuiet(NodeEvents(n), path);
    }
  }

  /** One run of the handler mails at most once for the update and for the scheduling of the node, and at most once for
      each of its Ready conditions that is True or False. */
  lemma NodeMails(w: World, n: Node)
    ensures
      var w' := Run(w, NodeEvents(n));
      var mcp, sched, ready := Path(AlertDir, "." + n.name + "-mcp-issue.txt"), Path(AlertDir, "." + n.name + "-sched.txt"),
                               Path(AlertDir, "." + n.name + "-ready.txt");
      && MailCount(w', mcp) <= MailCount(w, mcp) + 1 && MailCount(w', sched) <= MailCount(w, sched) + 1
      && MailCount(w', ready) <= MailCount(w, ready) +
           Count(c => c == Condition("Ready", "True") || c == Condition("Ready", "False"), n.conditions)
  {
    NodeSends(n);
    QuietOnce(w, NodeEvents(n), McpIssueKey(n));
    QuietOnce(w, NodeEvents(n), SchedKey(n));
    OneMailEach(w, NodeEvents(n), ReadyKey(n));
    ReadyEventsCount(n);
  }

  lemma QuietOnce(w: World, events: seq<Event>, path: Path)
    requires !(Event(path, Faulty) in events && Event(path, Recovered) in events)
    ensures MailCount(Run(w, events), path) <= MailCount(w, path) + 1
  {
    QuietExactly(events, path);
    assert Repeat(events, 0) + events == events;
    assert Repeat(events, 1) == events;
  }

  lemma {:induction false} ReadyCount(conditions: seq<Condition>, key: Path)
    ensures |ReadyEvents(conditions, key)| ==
            Count(c => c == Condition("Ready", "True") || c == Condition("Ready", "False"), conditions)
  {
    if conditions != [] {
      ReadyCount(conditions[..|conditions| - 1], key);
    }
  }

  lemma ReadyEventsCount(n: Node)
    ensures |EventsFor(NodeEvents(n), ReadyKey(n))| <=
            Count(c => c == Condition("Ready", "True") || c == Condition("Ready", "False"), n.conditions)
  {
    KeysDiffer(n);
    var key := ReadyKey(n);
    var ready := ReadyEvents(n.conditions, key);
    ReadyMembers(n.conditions, key);
    ReadyCount(n.conditions, key);
    EventsForAll(ready, key);
    EventsForAll(AnnotationEvents(n), key);
    EventsForAll([Event(SchedKey(n), Recovered)], key);
    EventsForAll(SchedulingEvents(n), key);
    EventsForConcat([Event(SchedKey(n), Recovered)], ready, key);
    EventsForConcat(AnnotationEvents(n), if Stuck(n) then [] else SchedulingEvents(n), key);
  }
}
