/** The Ready condition of the health-check status. */
module Conditions {
  import opened Basics

  /** since is the last transition time, None for nil. */
  datatype StatusCondition = StatusCondition(kind: string, status: string, since: Option<Time>, reason: string, message: string)

  const READY := "Ready"
  const REASON := "OcpHealthCheckReconciler"

  /** The position of the first Ready entry, or the length of the list. */
  function ReadyIndex(cs: seq<StatusCondition>): (i: nat)
    ensures i <= |cs|
    ensures i < |cs| ==> cs[i].kind == READY
    ensures forall j :: 0 <= j < i ==> cs[j].kind != READY
  {
    if cs == [] || cs[0].kind == READY then 0 else 1 + ReadyIndex(cs[1..])
  }

  function ReadyOf(cs: seq<StatusCondition>): Option<StatusCondition> {
    if ReadyIndex(cs) < |cs| then Some(cs[ReadyIndex(cs)]) else None
  }

  function Transition(c: StatusCondition, status: string, now: Time, reason: string, message: string): StatusCondition {
    StatusCondition(c.kind, status, if c.status != status then Some(now) else c.since, reason, message)
  }

  function AfterSet(cs: seq<StatusCondition>, status: string, now: Time, reason: string, message: string): seq<StatusCondition> {
    var i := ReadyIndex(cs);
    if i < |cs| then cs[i := Transition(cs[i], status, now, reason, message)]
    else cs + [Transition(StatusCondition(READY, "", None, "", ""), status, now, reason, message)]
  }

  class Status {
    var conditions: seq<StatusCondition>
    var healthy: bool

    constructor (conditions: seq<StatusCondition>, healthy: bool)
      ensures this.conditions == conditions && this.healthy == healthy
    {
      this.conditions, this.healthy := conditions, healthy;
    }

    method GetReadyCondition() returns (r: Option<StatusCondition>)
      ensures r == ReadyOf(conditions)
    {
      for i := 0 to |conditions|
        invariant forall j :: 0 <= j < i ==> conditions[j].kind != READY
      {
        if conditions[i].kind == READY {
          return Some(conditions[i]);
        }
      }
      return None;
    }

    method SetReadyCondition(status: string, now: Time, reason: string, message: string)
      modifies this
      ensures conditions == AfterSet(old(conditions), status, now, reason, message)
      ensures healthy == old(healthy)
    {
      var found := GetReadyCondition();
      var ready := found.GetOr(StatusCondition(READY, "", None, "", ""));
      if found.None? {
        conditions := conditions + [ready];
      }
      if ready.status != status {
        ready := ready.(status := status, since := Some(now));
      }
      ready := ready.(reason := reason, message := message);
      for i := 0 to |conditions|
        invariant healthy == old(healthy)
        invariant conditions == old(conditions) + if found.None? then [StatusCondition(READY, "", None, "", "")] else []
        invariant forall j :: 0 <= j < i ==> conditions[j].kind != READY
      {
        if conditions[i].kind == READY {
          conditions := conditions[i := ready];
          return;
        }
      }
    }
  }

  predicate NoReady(cs: seq<StatusCondition>) {
    forall i :: 0 <= i < |cs| ==> cs[i].kind != READY
  }

  /** One call of SetReadyCondition. */
  datatype Report = Report(status: string, now: Time, reason: string, message: string)

  function AfterReports(cs: seq<StatusCondition>, reports: seq<Report>): seq<StatusCondition> {
    if reports == [] then cs
    else
      var r := reports[|reports| - 1];
      AfterSet(AfterReports(cs, reports[..|reports| - 1]), r.status, r.now, r.reason, r.message)
  }

  /** Call m is the first of the last run of calls with equal statuses. */
  predicate StartsLastRun(reports: seq<Report>, m: nat) {
    && m < |reports|
    && (forall j :: m <= j < |reports| ==> reports[j].status == reports[|reports| - 1].status)
    && (m > 0 ==> reports[m - 1].status != reports[m].status)
  }

  lemma ReadyAtEnd(cs: seq<StatusCondition>, ready: StatusCondition, r: Report)
    requires NoReady(cs) && ready.kind == READY
    ensures AfterSet(cs + [ready], r.status, r.now, r.reason, r.message) ==
            cs + [Transition(ready, r.status, r.now, r.reason, r.message)]
  {
    var all := cs + [ready];
    assert all[|cs|].kind == READY && forall j :: 0 <= j < |cs| ==> all[j] == cs[j];
    assert ReadyIndex(all) == |cs|;
  }

  /** Condition history: after any calls with non-empty statuses on a list without a Ready entry, the list is the old one
      followed by one Ready entry, which carries the last status, reason and message and the time of the first call in
      the current run of equal statuses. */
  lemma {:induction false} ConditionHistory(cs: seq<StatusCondition>, reports: seq<Report>) returns (m: nat)
    requires NoReady(cs) && reports != [] && forall r :: r in reports ==> r.status != ""
    ensures StartsLastRun(reports, m)
    ensures
      var last := reports[|reports| - 1];
      AfterReports(cs, reports) == cs + [StatusCondition(READY, last.status, Some(reports[m].now), last.reason, last.message)]
  {
    var n := |reports| - 1;
    var init, last := reports[..n], reports[n];
    assert last in reports && forall r :: r in init ==> r in reports;
    if init == [] {
      m := 0;
      assert AfterReports(cs, init) == cs;
    } else {
      m := ConditionHistory(cs, init);
      var prev := init[n - 1];
      ReadyAtEnd(cs, StatusCondition(READY, prev.status, Some(init[m].now), prev.reason, prev.message), last);
      if prev.status != last.status {
        m := n;
      }
    }
  }

  /** On any list, a call changes nothing but the first Ready entry, or adds one at the end. */
  lemma SetTouchesOnlyReady(cs: seq<StatusCondition>, status: string, now: Time, reason: string, message: string)
    ensures
      var after, i := AfterSet(cs, status, now, reason, message), ReadyIndex(cs);
      && (NoReady(cs) <==> |after| == |cs| + 1)
      && (!NoReady(cs) <==> |after| == |cs|)
      && (forall j :: 0 <= j < |cs| && j != i ==> after[j] == cs[j])
      && ReadyOf(after).Some? && ReadyOf(after).value.status == status
  {
    var after, i := AfterSet(cs, status, now, reason, message), ReadyIndex(cs);
    assert after[i].kind == READY;
    assert forall j :: 0 <= j < i ==> after[j].kind != READY;
  }
}
