/** The policy handlers: the informer handler for one policy and the hub scan over all policies. */
module Policies {
  import opened Basics
  import opened Alerts
  import opened Ignores
  import opened Pods

  const PARENT_LABEL := "openshift-cluster-group-upgrades/parentPolicyName"
  const WINDOW: Time := 6 * HOUR

  /** history holds the time stamps of the entries, newest first; None is a nil history. */
  datatype Detail = Detail(history: Option<seq<Time>>)

  datatype Policy = Policy(
    name: string,
    namespace: string,
    deleting: bool,
    labels: map<string, string>,
    compliance: string,
    disabled: bool,
    details: seq<Detail>)

  /** A policy and the clock when it is looked at. */
  datatype Seen = Seen(policy: Policy, now: Time)

  function PolicyKey(p: Policy): Path {
    Path(AlertDir, "." + p.name + "-" + p.namespace + ".txt")
  }

  predicate PolicyIgnored(spec: Spec, p: Policy) {
    IsIgnored(spec.ignored, "policy", "policynamespace", p.namespace, p.name)
  }

  /** The operator reads the newest entry of every history that is not nil, once it looks at the details. */
  ghost predicate HistoriesReadable(spec: Spec, p: Policy) {
    !p.deleting && !PolicyIgnored(spec, p) && PARENT_LABEL !in p.labels && Noncompliant(p) ==> DetailsReadable(p)
  }

  ghost predicate DetailsReadable(p: Policy) {
    forall d :: d in p.details && d.history.Some? ==> d.history.value != []
  }

  method IsChildPolicy(p: Policy) returns (r: bool)
    ensures r <==> PARENT_LABEL in p.labels
  {
    var todo := p.labels.Keys;
    while todo != {}
      invariant todo <= p.labels.Keys
      invariant PARENT_LABEL in p.labels ==> PARENT_LABEL in todo
      decreases todo
    {
      var key :| key in todo;
      todo := todo - {key};
      if key == PARENT_LABEL {
        return true;
      }
    }
    return false;
  }

  predicate Noncompliant(p: Policy) {
    p.compliance == "NonCompliant" || p.disabled
  }

  /** The newest entry is no older than six hours. */
  predicate Recent(d: Detail, now: Time) {
    d.history.Some? && d.history.value != [] && !(d.history.value[0] < now - WINDOW)
  }

  function DetailEvents(details: seq<Detail>, key: Path, now: Time): seq<Event> {
    if details == [] then []
    else
      var n := |details| - 1;
      DetailEvents(details[..n], key, now) + (if Recent(details[n], now) then [Event(key, Faulty)] else [])
  }

  function PolicyEvents(p: Policy, now: Time): seq<Event> {
    if PARENT_LABEL in p.labels then []
    else if Noncompliant(p) then DetailEvents(p.details, PolicyKey(p), now)
    else [Event(PolicyKey(p), Recovered)]
  }

  /** What the informer handler does for one policy. */
  function PolicyUpdateEvents(spec: Spec, seen: Seen): seq<Event> {
    if seen.policy.deleting || PolicyIgnored(spec, seen.policy) then [] else PolicyEvents(seen.policy, seen.now)
  }

  method ReportDetails(ledger: Ledger, p: Policy, now: Time, spec: Spec)
    requires DetailsReadable(p)
    modifies ledger
    ensures ledger.Now() == Process(ledger.EnvOf(spec.suspendEmailAlert), old(ledger.Now()),
                                    DetailEvents(p.details, PolicyKey(p), now))
  {
    ghost var env, start := ledger.EnvOf(spec.suspendEmailAlert), ledger.Now();
    var pastTime := now - 6 * HOUR;
    for i := 0 to |p.details|
      invariant ledger.Now() == Process(env, start, DetailEvents(p.details[..i], PolicyKey(p), now))
    {
      assert p.details[..i + 1][..i] == p.details[..i];
      ghost var before := DetailEvents(p.details[..i], PolicyKey(p), now);
      ProcessStep(env, start, before, Event(PolicyKey(p), Faulty));
      assert before + [] == before;
      var d := p.details[i];
      assert d in p.details;
      if d.history.Some? {
        if !(d.history.value[0] < pastTime) {
          ledger.SendEmail(Event(PolicyKey(p), Faulty), spec.suspendEmailAlert);
        }
      }
    }
    assert p.details[..|p.details|] == p.details;
  }

  /** The update handler of the policy informer. */
  method OnPolicyUpdate(ledger: Ledger, spec: Spec, converted: bool, seen: Seen)
    requires EntriesHaveNames(spec.ignored, "policy", seen.policy.namespace) && HistoriesReadable(spec, seen.policy)
    modifies ledger
    ensures ledger.Now() == Process(ledger.EnvOf(spec.suspendEmailAlert), old(ledger.Now()),
                                    if converted then PolicyUpdateEvents(spec, seen) else [])
  {
    var p := seen.policy;
    if !converted || p.deleting {
      return;
    }
    var ignored := IgnoredResource(spec.ignored, "policy", "policynamespace", p.namespace, p.name);
    if ignored {
      return;
    }
    ProcessOne(ledger.EnvOf(spec.suspendEmailAlert), ledger.Now(), Event(PolicyKey(p), Recovered));
    var child := IsChildPolicy(p);
    if !child {
      if p.compliance == "NonCompliant" || p.disabled {
        ReportDetails(ledger, p, seen.now, spec);
      } else {
        ledger.SendEmail(Event(PolicyKey(p), Recovered), spec.suspendEmailAlert);
      }
    }
  }

  /** The hub scan ends before a policy that is being deleted and not ignored. */
  predicate BlocksScan(spec: Spec, p: Policy) {
    p.deleting && !PolicyIgnored(spec, p)
  }

  /** How many policies the hub scan handles. */
  function Handled(spec: Spec, list: seq<Seen>): (k: nat)
    ensures k <= |list|
  {
    if list == [] || BlocksScan(spec, list[0].policy) then 0 else 1 + Handled(spec, list[1..])
  }

  /** The prefix handled is the longest one without a policy that blocks the scan. */
  lemma {:induction false} HandledExact(spec: Spec, list: seq<Seen>)
    ensures
      var k := Handled(spec, list);
      && (forall i :: 0 <= i < k ==> !list[i].policy.deleting || PolicyIgnored(spec, list[i].policy))
      && (k < |list| ==> list[k].policy.deleting && !PolicyIgnored(spec, list[k].policy))
  {
    if list != [] && !BlocksScan(spec, list[0].policy) {
      HandledExact(spec, list[1..]);
    }
  }

  function Handler(spec: Spec): Seen -> seq<Event> {
    seen => PolicyUpdateEvents(spec, seen)
  }

  /** The hub scan: the informer handler applied, policy by policy, to the policies handled. policies is Failure when
      the query fails. */
  method OnPolicyUpdateHub(ledger: Ledger, spec: Spec, policies: Result<seq<Seen>>)
    requires policies.Success? ==> forall i :: 0 <= i < |policies.value| && i <= Handled(spec, policies.value) ==>
      && EntriesHaveNames(spec.ignored, "policy", policies.value[i].policy.namespace)
      && HistoriesReadable(spec, policies.value[i].policy)
    modifies ledger
    ensures policies.Failure? ==> ledger.Now() == old(ledger.Now())
    ensures policies.Success? ==>
      ledger.Now() == ProcessEach(ledger.EnvOf(spec.suspendEmailAlert), old(ledger.Now()), Handler(spec),
                                  policies.value[..Handled(spec, policies.value)])
  {
    ghost var env, start := ledger.EnvOf(spec.suspendEmailAlert), ledger.Now();
    if policies.Failure? {
      return;
    }
    var list := policies.value;
    for i := 0 to |list|
      invariant Handled(spec, list) == i + Handled(spec, list[i..])
      invariant ledger.Now() == ProcessEach(env, start, Handler(spec), list[..i])
    {
      var p, now := list[i].policy, list[i].now;
      assert EntriesHaveNames(spec.ignored, "policy", list[i].policy.namespace) && HistoriesReadable(spec, list[i].policy);
      ghost var before := ledger.Now();
      assert list[..i + 1][..i] == list[..i];
      ProcessOne(env, before, Event(PolicyKey(p), Recovered));
      var ignored := IgnoredResource(spec.ignored, "policy", "policynamespace", p.namespace, p.name);
      if !ignored {
        if p.deleting {
          return;
        }
        var child := IsChildPolicy(p);
        if !child {
          if p.compliance == "NonCompliant" || p.disabled {
            ReportDetails(ledger, p, now, spec);
          } else {
            ledger.SendEmail(Event(PolicyKey(p), Recovered), spec.suspendEmailAlert);
          }
        }
      }
      assert list[i..][1..] == list[i + 1..];
    }
    assert list[..|list|] == list;
  }

  lemma {:induction false} DetailEventsExact(details: seq<Detail>, key: Path, now: Time)
    ensures AllAre(DetailEvents(details, key, now), key, Faulty)
    ensures DetailEvents(details, key, now) != [] <==> exists i :: 0 <= i < |details| && Recent(details[i], now)
  {
    if details != [] {
      var init := details[..|details| - 1];
      DetailEventsExact(init, key, now);
      assert forall i :: 0 <= i < |init| ==> init[i] == details[i];
    }
  }

  /** A failing root policy whose details show a message of the last six hours. */
  predicate FailsLately(p: Policy, now: Time) {
    && "openshift-cluster-group-upgrades/parentPolicyName" !in p.labels
    && (p.compliance == "NonCompliant" || p.disabled)
    && exists i :: 0 <= i < |p.details| && SeenSince(p.details[i], now - 21_600_000_000_000)
  }

  /** The newest entry of the history is no older than this time. */
  predicate SeenSince(d: Detail, time: Time) {
    d.history.Some? && d.history.value != [] && d.history.value[0] >= time
  }

  /** A root policy that is compliant and enabled. */
  predicate Fine(p: Policy) {
    && "openshift-cluster-group-upgrades/parentPolicyName" !in p.labels
    && p.compliance != "NonCompliant" && !p.disabled
  }

  /** Exactly what the handler does to the file of a policy when nothing fails: a policy that has been failing lately sets
      it, one that is fine clears it, any other keeps it; and no other file changes. */
  lemma PolicyVerdict(w: World, p: Policy, now: Time)
    ensures
      var w', key := Run(w, PolicyEvents(p, now)), Path(AlertDir, "." + p.name + "-" + p.namespace + ".txt");
      && (Sent(w', key) <==> FailsLately(p, now) || (Sent(w, key) && !Fine(p)))
      && OnlyTouches(w, w', key)
  {
    var key := PolicyKey(p);
    DetailEventsExact(p.details, key, now);
    RecentExactly(p, now);
    UniformRun(w, PolicyEvents(p, now), key, if Noncompliant(p) then Faulty else Recovered);
  }

  /** Exactly what one update of a policy does: nothing when it is being deleted or ignored, and otherwise as above. */
  lemma PolicyUpdateVerdict(w: World, spec: Spec, seen: Seen)
    ensures
      var p := seen.policy;
      var w', key := Run(w, PolicyUpdateEvents(spec, seen)), Path(AlertDir, "." + p.name + "-" + p.namespace + ".txt");
      && (Sent(w', key) <==>
           if p.deleting || PolicyIgnored(spec, p) then Sent(w, key)
           else FailsLately(p, seen.now) || (Sent(w, key) && !Fine(p)))
      && OnlyTouches(w, w', key)
  {
    assert Run(w, []) == w;
    PolicyVerdict(w, seen.policy, seen.now);
  }

  lemma RecentExactly(p: Policy, now: Time)
    ensures (exists i :: 0 <= i < |p.details| && Recent(p.details[i], now)) <==>
            (exists i :: 0 <= i < |p.details| && SeenSince(p.details[i], now - 21_600_000_000_000))
  {
    forall i | 0 <= i < |p.details|
      ensures Recent(p.details[i], now) <==> SeenSince(p.details[i], now - 21_600_000_000_000)
    {
    }
  }

  /** Exactly the policies that are on the ignore list, one by one or with their namespace. */
  lemma PolicyIgnoredExactly(spec: Spec, p: Policy)
    requires '/' !in p.namespace && '/' !in p.name
    ensures PolicyIgnored(spec, p) <==>
            exists m :: m in spec.ignored && Covers(m, "policy", "policynamespace", p.namespace, p.name)
  {
    IgnoredExactly(spec.ignored, "policy", "policynamespace", p.namespace, p.name);
  }

  /** The same policy, looked at again and again. */
  function Looks(spec: Spec, p: Policy, times: seq<Time>): seq<Event> {
    if times == [] then [] else Looks(spec, p, times[..|times| - 1]) + PolicyUpdateEvents(spec, Seen(p, times[|times| - 1]))
  }

  lemma {:induction false} LooksAreSteady(spec: Spec, p: Policy, times: seq<Time>)
    ensures AllAre(Looks(spec, p, times), PolicyKey(p), if Noncompliant(p) then Faulty else Recovered)
  {
    if times != [] {
      LooksAreSteady(spec, p, times[..|times| - 1]);
      DetailEventsExact(p.details, PolicyKey(p), times[|times| - 1]);
    }
  }

  /** Resync bound for policies: an unchanged policy that is reported any number of times, at whatever times, sends at most
      one mail, from any world, and touches no other file. */
  lemma PolicyResyncBound(w: World, spec: Spec, p: Policy, times: seq<Time>)
    ensures
      var w', key := Run(w, Looks(spec, p, times)), Path(AlertDir, "." + p.name + "-" + p.namespace + ".txt");
      MailCount(w', key) <= MailCount(w, key) + 1 && OnlyTouches(w, w', key)
  {
    var v := if Noncompliant(p) then Faulty else Recovered;
    LooksAreSteady(spec, p, times);
    UniformMails(w, Looks(spec, p, times), PolicyKey(p), v);
    UniformRun(w, Looks(spec, p, times), PolicyKey(p), v);
  }
}
