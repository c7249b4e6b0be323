/** Snapshots of the cluster, the readiness probes, and the machine-config gate. */
module Cluster {
  import opened Basics

  const STATE_ANNOTATION := "machineconfiguration.openshift.io/state"
  const DONE := "Done"

  /** An entry of status.conditions. */
  datatype Condition = Condition(kind: string, status: string)

  datatype Node = Node(
    name: string,
    deleting: bool,
    unschedulable: bool,
    labels: map<string, string>,
    annotations: map<string, string>,
    conditions: seq<Condition>)

  /** A machine-config pool. selector is None for a nil node selector. */
  datatype Pool = Pool(name: string, selector: Option<map<string, string>>, conditions: seq<Condition>)

  /** One snapshot of the API server. The flags say which queries fail. */
  datatype Api = Api(
    pools: Result<seq<Pool>>,
    nodes: seq<Node>,
    listFails: map<string, string> -> bool,
    getFails: string -> bool)

  const ALL: map<string, string> := map[]

  /** Equality-based selection; an empty selector selects every node. */
  predicate Selects(labels: map<string, string>, n: Node) {
    forall k :: k in labels ==> k in n.labels && n.labels[k] == labels[k]
  }

  function Filter(nodes: seq<Node>, labels: map<string, string>): seq<Node> {
    if nodes == [] then []
    else (if Selects(labels, nodes[0]) then [nodes[0]] else []) + Filter(nodes[1..], labels)
  }

  lemma {:induction false} FilterMember(nodes: seq<Node>, labels: map<string, string>, n: Node)
    ensures n in Filter(nodes, labels) <==> n in nodes && Selects(labels, n)
  {
    if nodes != [] {
      FilterMember(nodes[1..], labels, n);
      assert nodes == [nodes[0]] + nodes[1..];
    }
  }

  /** The first selected node comes first. */
  lemma {:induction false} FilterFirst(nodes: seq<Node>, labels: map<string, string>, i: nat)
    requires i < |nodes| && Selects(labels, nodes[i]) && forall j :: 0 <= j < i ==> !Selects(labels, nodes[j])
    ensures Filter(nodes, labels) != [] && Filter(nodes, labels)[0] == nodes[i]
  {
    if i > 0 {
      assert !Selects(labels, nodes[0]);
      FilterFirst(nodes[1..], labels, i - 1);
    }
  }

  function ListNodes(api: Api, labels: map<string, string>): Result<seq<Node>> {
    if api.listFails(labels) then Failure else Success(Filter(api.nodes, labels))
  }

  /** Not usable for the selector and single-node probes. */
  predicate NotReady(n: Node) {
    n.unschedulable || exists i :: 0 <= i < |n.conditions| && n.conditions[i] == Condition("Ready", "False")
  }

  /** Not usable for the cluster-wide probe, which also counts an unknown readiness. */
  predicate NotKnownReady(n: Node) {
    || n.unschedulable
    || exists i :: 0 <= i < |n.conditions| && n.conditions[i].kind == "Ready" && n.conditions[i].status != "True"
  }

  /** Position i holds the first element with the property. */
  predicate FirstAt<T>(xs: seq<T>, p: T -> bool, i: int) {
    0 <= i < |xs| && p(xs[i]) && forall j :: 0 <= j < i ==> !p(xs[j])
  }

  predicate NoneHas<T>(xs: seq<T>, p: T -> bool) {
    forall j :: 0 <= j < |xs| ==> !p(xs[j])
  }

  function Lookup(nodes: seq<Node>, name: string): (r: Option<Node>)
    ensures r.Some? ==> r.value in nodes && r.value.name == name
    ensures r.None? ==> forall n :: n in nodes ==> n.name != name
  {
    if nodes == [] then None
    else if nodes[0].name == name then Some(nodes[0])
    else
      assert nodes == [nodes[0]] + nodes[1..];
      Lookup(nodes[1..], name)
  }

  /** Position i holds the first node of this name. */
  predicate FirstNamed(nodes: seq<Node>, name: string, i: int) {
    0 <= i < |nodes| && nodes[i].name == name && forall j :: 0 <= j < i ==> nodes[j].name != name
  }

  lemma {:induction false} LookupExactly(nodes: seq<Node>, name: string)
    ensures forall i :: FirstNamed(nodes, name, i) ==> Lookup(nodes, name) == Some(nodes[i])
    ensures Lookup(nodes, name).Some? ==> exists i :: FirstNamed(nodes, name, i)
  {
    if nodes != [] {
      var rest := nodes[1..];
      LookupExactly(rest, name);
      assert forall j :: 0 <= j < |rest| ==> rest[j] == nodes[j + 1];
      if nodes[0].name == name {
        assert FirstNamed(nodes, name, 0);
      } else {
        forall i | FirstNamed(nodes, name, i)
          ensures FirstNamed(rest, name, i - 1)
        {
        }
        if i :| FirstNamed(rest, name, i) {
          assert FirstNamed(nodes, name, i + 1);
        }
      }
    }
  }

  /** The single-node probe finds a node unaffected exactly when it can be looked up, is there, is schedulable and has no
      Ready condition that is False. */
  lemma SingleNodeExactly(api: Api, name: string)
    ensures SingleNodeProbe(api, name) == Success(false) <==>
      && !api.getFails(name)
      && exists i :: FirstNamed(api.nodes, name, i) && !api.nodes[i].unschedulable &&
           Condition("Ready", "False") !in api.nodes[i].conditions
  {
    LookupExactly(api.nodes, name);
  }

  /** True means affected. A name that is not there is an error. */
  function SingleNodeProbe(api: Api, name: string): Result<bool> {
    if api.getFails(name) || Lookup(api.nodes, name).None? then Failure
    else Success(NotReady(Lookup(api.nodes, name).value))
  }

  method CheckSingleNodeReadiness(api: Api, name: string) returns (r: Result<bool>)
    ensures r == SingleNodeProbe(api, name)
  {
    var answer := if api.getFails(name) then None else Lookup(api.nodes, name);
    if answer.None? {
      return Failure;
    }
    var n := answer.value;
    if n.unschedulable {
      return Success(true);
    }
    for k := 0 to |n.conditions|
      invariant forall j :: 0 <= j < k ==> n.conditions[j] != Condition("Ready", "False")
    {
      if n.conditions[k].kind == "Ready" && n.conditions[k].status == "False" {
        assert n.conditions[k] == Condition("Ready", "False");
        return Success(true);
      }
    }
    return Success(false);
  }

  /** Names the first selected node that is not ready. */
  method CheckNodeReadiness(api: Api, labels: map<string, string>) returns (r: Result<Option<string>>)
    ensures r.Failure? <==> api.listFails(labels)
    ensures r == Success(None) ==> NoneHas(Filter(api.nodes, labels), NotReady)
    ensures r.Success? && r.value.Some? ==>
      exists i :: FirstAt(Filter(api.nodes, labels), NotReady, i) && r.value.value == Filter(api.nodes, labels)[i].name
  {
    var answer := ListNodes(api, labels);
    if answer.Failure? {
      return Failure;
    }
    var nodes := answer.value;
    for i := 0 to |nodes|
      invariant forall j :: 0 <= j < i ==> !NotReady(nodes[j])
    {
      var n := nodes[i];
      if n.unschedulable {
        assert FirstAt(nodes, NotReady, i);
        return Success(Some(n.name));
      }
      for k := 0 to |n.conditions|
        invariant forall j :: 0 <= j < k ==> n.conditions[j] != Condition("Ready", "False")
      {
        if n.conditions[k].kind == "Ready" && n.conditions[k].status == "False" {
          assert n.conditions[k] == Condition("Ready", "False");
          assert FirstAt(nodes, NotReady, i);
          return Success(Some(n.name));
        }
      }
    }
    return Success(None);
  }

  function AllNodeProbe(api: Api): Result<bool> {
    if api.listFails(ALL) then Failure else Success(exists n :: n in api.nodes && NotKnownReady(n))
  }

  method AllNodeReadiness(api: Api) returns (r: Result<bool>)
    ensures r == AllNodeProbe(api)
  {
    var answer := ListNodes(api, ALL);
    if answer.Failure? {
      return Failure;
    }
    var nodes := answer.value;
    forall n {:trigger Selects(ALL, n)}
      ensures n in nodes <==> n in api.nodes
    {
      FilterMember(api.nodes, ALL, n);
      assert Selects(ALL, n);
    }
    for i := 0 to |nodes|
      invariant forall j :: 0 <= j < i ==> !NotKnownReady(nodes[j])
    {
      var n := nodes[i];
      assert Selects(ALL, n);
      if n.unschedulable {
        return Success(true);
      }
      for k := 0 to |n.conditions|
        invariant forall j :: 0 <= j < k ==> !(n.conditions[j].kind == "Ready" && n.conditions[j].status != "True")
      {
        if n.conditions[k].kind == "Ready" {
          if n.conditions[k].status != "True" {
            return Success(true);
          }
        }
      }
    }
    assert forall n :: n in api.nodes ==> Selects(ALL, n);
    return Success(false);
  }

  /** The three probes on one snapshot: whatever the narrow probes report, the cluster-wide probe reports too, and
      a named node satisfies the selector. */
  method ProbesAreConsistent(api: Api, labels: map<string, string>, name: string)
    returns (all: Result<bool>, some: Result<Option<string>>, one: Result<bool>)
    ensures all == Success(false) ==> (some.Failure? || some == Success(None)) && one != Success(true)
    ensures some.Success? && some.value.Some? ==>
      && (exists n :: n in api.nodes && Selects(labels, n) && NotReady(n) && n.name == some.value.value)
      && (all.Success? ==> all.value)
    ensures one == Success(true) && all.Success? ==> all.value
  {
    all := AllNodeReadiness(api);
    some := CheckNodeReadiness(api, labels);
    one := CheckSingleNodeReadiness(api, name);
    if some.Success? && some.value.Some? {
      var nodes := Filter(api.nodes, labels);
      ghost var i :| FirstAt(nodes, NotReady, i) && some.value.value == nodes[i].name;
      FilterMember(api.nodes, labels, nodes[i]);
      assert nodes[i] in nodes;
    }
    forall n | NotReady(n)
      ensures NotKnownReady(n)
    {
      NotReadyIsNotKnownReady(n);
    }
  }

  lemma NotReadyIsNotKnownReady(n: Node)
    requires NotReady(n)
    ensures NotKnownReady(n)
  {
    if !n.unschedulable {
      var i :| 0 <= i < |n.conditions| && n.conditions[i] == Condition("Ready", "False");
      assert n.conditions[i].kind == "Ready" && n.conditions[i].status != "True";
    }
  }

  /** The narrow and the wide notion of readiness part exactly on schedulable nodes whose Ready conditions are never
      False and not all True. */
  lemma ReadinessGap(n: Node)
    ensures (NotKnownReady(n) && !NotReady(n)) <==>
      && !n.unschedulable
      && (forall i :: 0 <= i < |n.conditions| && n.conditions[i].kind == "Ready" ==> n.conditions[i].status != "False")
      && (exists i :: 0 <= i < |n.conditions| && n.conditions[i].kind == "Ready" &&
                      n.conditions[i].status != "True" && n.conditions[i].status != "False")
  {
    forall i | 0 <= i < |n.conditions|
      ensures n.conditions[i] == Condition("Ready", "False") <==>
              n.conditions[i].kind == "Ready" && n.conditions[i].status == "False"
    {
    }
  }

  /** A node whose state annotation is there and is not Done. */
  predicate Updating(n: Node) {
    STATE_ANNOTATION in n.annotations && n.annotations[STATE_ANNOTATION] != DONE
  }

  /** Names the first selected node whose state annotation is not Done. */
  method CheckNodeMcpAnnotations(api: Api, labels: map<string, string>) returns (r: Result<Option<string>>)
    ensures r.Failure? <==> api.listFails(labels)
    ensures r == Success(None) ==> NoneHas(Filter(api.nodes, labels), Updating)
    ensures r.Success? && r.value.Some? ==>
      exists i :: FirstAt(Filter(api.nodes, labels), Updating, i) && r.value.value == Filter(api.nodes, labels)[i].name
  {
    var answer := ListNodes(api, labels);
    if answer.Failure? {
      return Failure;
    }
    var nodes := answer.value;
    for i := 0 to |nodes|
      invariant forall j :: 0 <= j < i ==> !Updating(nodes[j])
    {
      // the annotations of a node come in any order
      var todo := nodes[i].annotations.Keys;
      while todo != {}
        invariant todo <= nodes[i].annotations.Keys
        invariant STATE_ANNOTATION !in todo ==> !Updating(nodes[i])
        decreases todo
      {
        var anno :| anno in todo;
        todo := todo - {anno};
        if anno == STATE_ANNOTATION {
          if nodes[i].annotations[anno] != DONE {
            assert FirstAt(nodes, Updating, i);
            return Success(Some(nodes[i].name));
          }
        }
      }
    }
    return Success(None);
  }

  /** A pool that reports an update. */
  predicate PoolUpdating(p: Pool) {
    exists i :: 0 <= i < |p.conditions| && p.conditions[i] == Condition("Updating", "True")
  }

  /** The operator reads the selector of every pool that reports an update, so it must be there. */
  ghost predicate SelectorsPresent(api: Api) {
    api.pools.Success? ==> forall p :: p in api.pools.value && PoolUpdating(p) ==> p.selector.Some?
  }

  function SelectorOf(p: Pool): map<string, string> {
    if p.selector.Some? then p.selector.value else ALL
  }

  predicate SelectsUpdating(api: Api, p: Pool) {
    exists n :: n in api.nodes && Selects(SelectorOf(p), n) && Updating(n)
  }

  lemma SelectsUpdatingIffFiltered(api: Api, p: Pool)
    ensures SelectsUpdating(api, p) <==> !NoneHas(Filter(api.nodes, SelectorOf(p)), Updating)
  {
    var nodes := Filter(api.nodes, SelectorOf(p));
    forall n {:trigger Selects(SelectorOf(p), n)}
      ensures n in nodes <==> n in api.nodes && Selects(SelectorOf(p), n)
    {
      FilterMember(api.nodes, SelectorOf(p), n);
    }
    if SelectsUpdating(api, p) {
      var n :| n in api.nodes && Selects(SelectorOf(p), n) && Updating(n);
      assert n in nodes;
    } else {
      forall j | 0 <= j < |nodes|
        ensures !Updating(nodes[j])
      {
        assert nodes[j] in nodes;
        FilterMember(api.nodes, SelectorOf(p), nodes[j]);
      }
    }
  }

  /** An actual update: some pool reports it and some node it selects is not Done. */
  ghost predicate UpdateInProgress(api: Api)
    requires api.pools.Success?
  {
    exists p, n :: p in api.pools.value && n in api.nodes && DrivesUpdate(p, n)
  }

  /** The pool reports that it is updating, and the node has all labels of its selector and a state other than Done. */
  predicate DrivesUpdate(p: Pool, n: Node) {
    && Condition("Updating", "True") in p.conditions
    && (p.selector.Some? ==> forall k :: k in p.selector.value ==> k in n.labels && n.labels[k] == p.selector.value[k])
    && "machineconfiguration.openshift.io/state" in n.annotations
    && n.annotations["machineconfiguration.openshift.io/state"] != "Done"
  }

  lemma PoolDrives(api: Api, p: Pool)
    ensures PoolUpdating(p) && SelectsUpdating(api, p) <==> exists n :: n in api.nodes && DrivesUpdate(p, n)
  {
    forall n
      ensures DrivesUpdate(p, n) <==> PoolUpdating(p) && Selects(SelectorOf(p), n) && Updating(n)
    {
    }
  }

  function Gate(api: Api): Result<bool> {
    match api.pools
    case Failure => Failure
    case Success(pools) => ScanPools(api, pools)
  }

  function ScanPools(api: Api, pools: seq<Pool>): Result<bool> {
    if pools == [] then Success(false)
    else if !PoolUpdating(pools[0]) then ScanPools(api, pools[1..])
    else if api.listFails(SelectorOf(pools[0])) then Failure
    else if SelectsUpdating(api, pools[0]) then Success(true)
    else ScanPools(api, pools[1..])
  }

  method CheckMCPINProgress(api: Api) returns (r: Result<bool>)
    requires SelectorsPresent(api)
    ensures r == Gate(api)
  {
    if api.pools.Failure? {
      return Failure;
    }
    var pools := api.pools.value;
    for i := 0 to |pools|
      invariant Gate(api) == ScanPools(api, pools[i..])
    {
      var p := pools[i];
      assert p in pools;
      for k := 0 to |p.conditions|
        invariant forall j :: 0 <= j < k && p.conditions[j] == Condition("Updating", "True") ==>
          !api.listFails(SelectorOf(p)) && !SelectsUpdating(api, p)
      {
        if p.conditions[k].kind == "Updating" {
          if p.conditions[k].status == "True" {
            assert p.conditions[k] == Condition("Updating", "True");
            var answer := CheckNodeMcpAnnotations(api, p.selector.value);
            SelectsUpdatingIffFiltered(api, p);
            if answer.Failure? {
              return Failure;
            } else if answer.value.Some? {
              return Success(true);
            }
          }
        }
      }
    }
    return Success(false);
  }

  /** The query for pool i is needed and fails: no earlier pool ended the scan. */
  predicate FailsAt(api: Api, pools: seq<Pool>, i: int) {
    && 0 <= i < |pools| && PoolUpdating(pools[i]) && api.listFails(SelectorOf(pools[i]))
    && forall j :: 0 <= j < i && PoolUpdating(pools[j]) ==>
         !api.listFails(SelectorOf(pools[j])) && !SelectsUpdating(api, pools[j])
  }

  lemma {:induction false} ScanPoolsExact(api: Api, pools: seq<Pool>)
    ensures ScanPools(api, pools).Success? ==>
      (ScanPools(api, pools).value <==> exists p :: p in pools && PoolUpdating(p) && SelectsUpdating(api, p))
  {
    if pools != [] {
      ScanPoolsExact(api, pools[1..]);
      assert pools == [pools[0]] + pools[1..];
    }
  }

  lemma {:induction false} ScanPoolsFails(api: Api, pools: seq<Pool>)
    ensures ScanPools(api, pools).Failure? <==> exists i :: FailsAt(api, pools, i)
  {
    if pools != [] {
      var first, rest := pools[0], pools[1..];
      ScanPoolsFails(api, rest);
      assert forall j :: 0 <= j < |rest| ==> rest[j] == pools[j + 1];
      if PoolUpdating(first) && (api.listFails(SelectorOf(first)) || SelectsUpdating(api, first)) {
        if api.listFails(SelectorOf(first)) { assert FailsAt(api, pools, 0); }
      } else {
        forall i
          ensures FailsAt(api, rest, i) <==> FailsAt(api, pools, i + 1)
        {
          FailsShift(api, pools, i);
        }
        if i :| FailsAt(api, pools, i) {
          assert FailsAt(api, rest, i - 1);
        }
      }
    }
  }

  lemma FailsShift(api: Api, pools: seq<Pool>, i: int)
    requires pools != []
    requires PoolUpdating(pools[0]) ==> !api.listFails(SelectorOf(pools[0])) && !SelectsUpdating(api, pools[0])
    ensures FailsAt(api, pools[1..], i) <==> FailsAt(api, pools, i + 1)
  {
    var rest := pools[1..];
    assert forall j :: 0 <= j < |rest| ==> rest[j] == pools[j + 1];
    if FailsAt(api, pools, i + 1) {
      forall j | 0 <= j < i && PoolUpdating(rest[j])
        ensures !api.listFails(SelectorOf(rest[j])) && !SelectsUpdating(api, rest[j])
      {
        assert PoolUpdating(pools[j + 1]);
      }
    }
    if FailsAt(api, rest, i) {
      forall j | 0 <= j < i + 1 && PoolUpdating(pools[j])
        ensures !api.listFails(SelectorOf(pools[j])) && !SelectsUpdating(api, pools[j])
      {
        if j > 0 { assert PoolUpdating(rest[j - 1]); }
      }
    }
  }

  /** The gate never lies: an answer that is not an error tells exactly whether an update is in progress, and it is an
      error only when a query it needs fails before any update is found. */
  lemma GateIsExact(api: Api)
    ensures Gate(api).Success? ==> api.pools.Success? && (Gate(api).value <==> UpdateInProgress(api))
    ensures Gate(api).Failure? <==> api.pools.Failure? || exists i :: FailsAt(api, api.pools.value, i)
  {
    if api.pools.Success? {
      ScanPoolsExact(api, api.pools.value);
      forall p
        ensures PoolUpdating(p) && SelectsUpdating(api, p) <==> exists n :: n in api.nodes && DrivesUpdate(p, n)
      {
        PoolDrives(api, p);
      }
      ScanPoolsFails(api, api.pools.value);
    }
  }
}
