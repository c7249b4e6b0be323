/** Exactly when alerts and resolved mails stay balanced although goroutines interleave. */
module Balance {
  import opened Basics
  import opened Alerts
  import opened Histories
  import opened Goroutines
  import opened Races

  /** Alerts less resolved mails, less one if the file holds SENT. */
  function Excess(w: World, path: Path): int {
    Count(IsAlert, History(w.log, path)) - Count(IsResolved, History(w.log, path)) - (if Sent(w, path) then 1 else 0)
  }

  /** No leftovers of a failed write, and every alert that has not been resolved has its file. */
  predicate Even(w: World, path: Path) {
    (path in w.files ==> Sent(w, path)) && Excess(w, path) == 0
  }

  /** The goroutine has written the file and not yet mailed, or has mailed that it is resolved and not yet removed it. */
  predicate Owing(t: Thread, path: Path) {
    !Done(t) && t.todo[0].event.path == path && (t.pc == MailAlert || t.pc == Remove)
  }

  function Debt(threads: seq<Thread>, path: Path): nat {
    if threads == [] then 0
    else Debt(threads[..|threads| - 1], path) + (if Owing(threads[|threads| - 1], path) then 1 else 0)
  }

  lemma {:induction false} DebtUpdate(threads: seq<Thread>, i: nat, t: Thread, path: Path)
    requires i < |threads|
    ensures Debt(threads[i := t], path) + (if Owing(threads[i], path) then 1 else 0) ==
            Debt(threads, path) + (if Owing(t, path) then 1 else 0)
  {
    var n := |threads| - 1;
    if i < n {
      DebtUpdate(threads[..n], i, t, path);
      assert threads[i := t][..n] == threads[..n][i := t];
    } else {
      assert threads[i := t][..n] == threads[..n];
    }
  }

  lemma {:induction false} NoDebt(threads: seq<Thread>, path: Path)
    requires forall i :: 0 <= i < |threads| ==> !Owing(threads[i], path)
    ensures Debt(threads, path) == 0
  {
    if threads != [] {
      NoDebt(threads[..|threads| - 1], path);
    }
  }

  /** The balance of a system: what the goroutines owe counts as well. */
  function Total(s: System, path: Path): int {
    Excess(s.world, path) + Debt(s.threads, path)
  }

  /** Where a goroutine may be in a fault-free call for the path, when the file is absent or holds SENT. */
  predicate Placed(t: Thread, path: Path, sent: bool) {
    !Done(t) && t.todo[0].event.path == path ==>
      && t.todo[0].faults == NO_FAULTS
      && match t.pc
         case Stat => true
         case Read => true
         case Truncate => false
         case Write => t.todo[0].event.verdict == Faulty && !sent
         case MailAlert => t.todo[0].event.verdict == Faulty
         case MailResolved => t.todo[0].event.verdict == Recovered && sent
         case Remove => t.todo[0].event.verdict == Recovered && sent
  }

  predicate FaultFreeThread(t: Thread) {
    forall c :: c in t.todo ==> c.faults == NO_FAULTS
  }

  lemma CountAfter(h: seq<Entry>, e: Entry)
    ensures Count(IsAlert, h + [e]) == Count(IsAlert, h) + (if e.Alert? then 1 else 0)
    ensures Count(IsResolved, h + [e]) == Count(IsResolved, h) + (if e.Resolved? then 1 else 0)
  {
    assert (h + [e])[..|h + [e]| - 1] == h;
  }

  /** One step of a goroutine changes the balance of the file only by what it owes, and leaves it well placed. */
  lemma StepBalances(w: World, t: Thread, path: Path)
    requires !Done(t) && FaultFreeThread(t) && (path in w.files ==> Sent(w, path)) && Placed(t, path, Sent(w, path))
    ensures
      var (w', t') := Micro(w, t);
      && (path in w'.files ==> Sent(w', path)) && Placed(t', path, Sent(w', path)) && FaultFreeThread(t')
      && Excess(w', path) + (if Owing(t', path) then 1 else 0) == Excess(w, path) + (if Owing(t, path) then 1 else 0)
  {
    var own := t.todo[0].event.path;
    assert t.todo[0] in t.todo;
    if own != path {
      MicroFrame(w, t, path);
    } else {
      StepBalancesOwn(w, t, path);
    }
    FaultFreeAdvance(t);
  }

  lemma FaultFreeAdvance(t: Thread)
    requires !Done(t) && FaultFreeThread(t)
    ensures FaultFreeThread(Advance(t))
    ensures !Done(Advance(t)) ==> Advance(t).todo[0].faults == NO_FAULTS
  {
    assert t.todo[1..] != [] ==> t.todo[1..][0] in t.todo[1..];
  }

  lemma StepBalancesOwn(w: World, t: Thread, path: Path)
    requires !Done(t) && FaultFreeThread(t) && (path in w.files ==> Sent(w, path)) && Placed(t, path, Sent(w, path))
    requires t.todo[0].event.path == path
    ensures
      var (w', t') := Micro(w, t);
      && (path in w'.files ==> Sent(w', path)) && Placed(t', path, Sent(w', path))
      && Excess(w', path) + (if Owing(t', path) then 1 else 0) == Excess(w, path) + (if Owing(t, path) then 1 else 0)
  {
    var h := History(w.log, path);
    HistoryAppend(w.log, Record(path, MicroEntry(t)), path);
    CountAfter(h, MicroEntry(t));
    FaultFreeAdvance(t);
  }

  /** The goroutine still has an event with this verdict for the path. */
  predicate Sends(calls: seq<Call>, path: Path, v: Verdict) {
    exists c :: c in calls && c.event == Event(path, v)
  }

  /** At most one goroutine alerts the file, and at most one recovers it; they may be two. */
  predicate OneSided(programs: seq<seq<Call>>, path: Path) {
    forall i, j, v: Verdict
      | 0 <= i < |programs| && 0 <= j < |programs| && Sends(programs[i], path, v) && Sends(programs[j], path, v)
      :: i == j
  }

  /** Between any two steps of goroutines without failures. */
  ghost predicate Steady(programs: seq<seq<Call>>, s: System, path: Path) {
    && |s.threads| == |programs|
    && (path in s.world.files ==> Sent(s.world, path))
    && (forall i :: 0 <= i < |programs| ==>
         && FaultFreeThread(s.threads[i]) && Placed(s.threads[i], path, Sent(s.world, path))
         && forall c :: c in s.threads[i].todo ==> c in programs[i])
    && Total(s, path) == 0
  }

  /** A goroutine that is well placed stays so when another one changes the file. */
  lemma OthersStayPlaced(programs: seq<seq<Call>>, s: System, k: nat, i: nat, path: Path)
    requires OneSided(programs, path) && Steady(programs, s, path)
    requires k < |programs| && i < |programs| && i != k && !Done(s.threads[k])
    ensures Placed(s.threads[i], path, Sent(Step(s, k).world, path))
  {
    var t, o := s.threads[k], s.threads[i];
    if t.todo[0].event.path != path {
      MicroFrame(s.world, t, path);
    } else if !Done(o) && o.todo[0].event.path == path && t.todo[0].event.verdict == o.todo[0].event.verdict {
      var v := t.todo[0].event.verdict;
      assert t.todo[0] in t.todo && o.todo[0] in o.todo;
      assert Sends(programs[k], path, v) && Sends(programs[i], path, v);
    }
  }

  lemma StepStaysSteady(programs: seq<seq<Call>>, s: System, k: nat, path: Path)
    requires OneSided(programs, path) && Steady(programs, s, path)
    ensures Steady(programs, Step(s, k), path)
  {
    if k < |programs| && !Done(s.threads[k]) {
      var (w', t') := Micro(s.world, s.threads[k]);
      StepBalances(s.world, s.threads[k], path);
      DebtUpdate(s.threads, k, t', path);
      forall i | 0 <= i < |programs|
        ensures Placed(Step(s, k).threads[i], path, Sent(w', path))
      {
        if i != k {
          OthersStayPlaced(programs, s, k, i, path);
        }
      }
    }
  }

  lemma {:induction false} ExecuteStaysSteady(programs: seq<seq<Call>>, s: System, schedule: seq<nat>, path: Path)
    requires OneSided(programs, path) && Steady(programs, s, path)
    ensures Steady(programs, Execute(s, schedule), path)
  {
    if schedule != [] {
      var init := schedule[..|schedule| - 1];
      ExecuteStaysSteady(programs, s, init, path);
      StepStaysSteady(programs, Execute(s, init), schedule[|schedule| - 1], path);
    }
  }

  predicate NoFaults(programs: seq<seq<Call>>) {
    forall i, c :: 0 <= i < |programs| && c in programs[i] ==> c.faults == NO_FAULTS
  }

  /** Balance under interleaving: goroutines without failures, of which at most one alerts the file and at most one
      recovers it, leave the file in balance under every complete schedule, whatever they do to other files. */
  lemma OneSidedKeepsEven(w: World, programs: seq<seq<Call>>, schedule: seq<nat>, path: Path)
    requires NoFaults(programs) && OneSided(programs, path) && Even(w, path)
    requires AllDone(Execute(Start(w, programs), schedule))
    ensures Even(Execute(Start(w, programs), schedule).world, path)
  {
    var s := Execute(Start(w, programs), schedule);
    NoDebt(Start(w, programs).threads, path);
    StartsSteady(w, programs, path);
    ExecuteStaysSteady(programs, Start(w, programs), schedule, path);
    NoDebt(s.threads, path);
  }

  lemma StartsSteady(w: World, programs: seq<seq<Call>>, path: Path)
    requires NoFaults(programs) && Even(w, path) && Debt(Start(w, programs).threads, path) == 0
    ensures Steady(programs, Start(w, programs), path)
  {
    forall i | 0 <= i < |programs|
      ensures Placed(Start(w, programs).threads[i], path, Sent(w, path))
    {
      assert programs[i] != [] ==> programs[i][0] in programs[i];
    }
  }

  /** Disjoint goroutines are one-sided for every path. */
  lemma DisjointIsOneSided(programs: seq<seq<Call>>, path: Path)
    requires Disjoint(programs)
    ensures OneSided(programs, path)
  {
    forall i, j, v: Verdict
      | 0 <= i < |programs| && 0 <= j < |programs| && Sends(programs[i], path, v) && Sends(programs[j], path, v)
      ensures i == j
    {
      assert Owns(programs[i], path) && Owns(programs[j], path);
    }
  }

  // ---------------------------------------------------------------- the other direction

  /** The file is as goroutines that wait for this verdict have found it. */
  predicate Awaits(w: World, path: Path, v: Verdict) {
    if v == Faulty then path !in w.files else Sent(w, path)
  }

  /** Lets thread i run up to its first event with this verdict for the path: events with the other verdict that come
      before find nothing to do. */
  lemma {:induction false} RunUpToVerdict(s: System, i: nat, path: Path, v: Verdict) returns (schedule: seq<nat>)
    requires i < |s.threads| && Sends(s.threads[i].todo, path, v) && FaultFreeCalls(s) && Awaits(s.world, path, v)
    requires s.threads[i].todo[0].event.path == path ==>
      s.threads[i].pc == Stat || (s.threads[i].pc == Read && s.threads[i].todo[0].event.verdict != v)
    ensures
      var s' := Execute(s, schedule);
      && At(s'.threads[i], path, v, Stat) && FaultFreeCalls(s')
      && (forall k :: 0 <= k < |s.threads| && k != i ==> s'.threads[k] == s.threads[k])
      && Agree(s.world, s'.world, path)
    decreases |s.threads[i].todo|, Rank(s.threads[i].pc)
  {
    var t := s.threads[i];
    assert t.todo[0] in t.todo;
    if t.todo[0].event == Event(path, v) {
      schedule := [];
    } else {
      if t.todo[0].event.path != path {
        MicroFrame(s.world, t, path);
      }
      MicroProgress(s.world, t);
      StepKeepsFaultFree(s, i);
      var c :| c in t.todo && c.event == Event(path, v);
      assert c in t.todo[1..];
      var rest := RunUpToVerdict(Step(s, i), i, path, v);
      schedule := [i] + rest;
      ExecuteConcat(s, [i], rest);
      ExecuteOne(s, i);
    }
  }

  /** All goroutines but k are between two calls. */
  ghost predicate OnlyActive(s: System, k: nat, path: Path) {
    && (forall i :: 0 <= i < |s.threads| ==> FaultFreeThread(s.threads[i]) && (i != k ==> s.threads[i].pc == Stat))
    && (path in s.world.files ==> Sent(s.world, path))
    && (k < |s.threads| ==> Placed(s.threads[k], path, Sent(s.world, path)) && (Done(s.threads[k]) ==> s.threads[k].pc == Stat))
  }

  lemma TurnKeepsTotal(s: System, k: nat, i: nat, path: Path)
    requires OnlyActive(s, k, path) && i < |s.threads| && !Done(s.threads[i])
    requires i == k || k >= |s.threads| || s.threads[k].pc == Stat
    ensures OnlyActive(Step(s, i), i, path) && Total(Step(s, i), path) == Total(s, path)
  {
    var t := s.threads[i];
    assert t.todo[0] in t.todo;
    StepBalances(s.world, t, path);
    DebtUpdate(s.threads, i, Micro(s.world, t).1, path);
    if Done(Micro(s.world, t).1) {
      MicroEndsAtStat(s.world, t);
    }
  }

  /** One goroutine after the other, the rest of a run changes nothing in the balance. */
  lemma {:induction false} CompleteInTurn(s: System, k: nat, path: Path) returns (schedule: seq<nat>)
    requires OnlyActive(s, k, path)
    ensures
      var s' := Execute(s, schedule);
      AllDone(s') && Total(s', path) == Total(s, path)
    decreases Work(s.threads)
  {
    if AllDone(s) {
      schedule := [];
    } else {
      var i := k;
      if k >= |s.threads| || Done(s.threads[k]) || s.threads[k].pc == Stat {
        i :| 0 <= i < |s.threads| && !Done(s.threads[i]);
      }
      TurnKeepsTotal(s, k, i, path);
      WorkDecreases(s.world, s.threads, i);
      var rest := CompleteInTurn(Step(s, i), i, path);
      schedule := [i] + rest;
      ExecuteConcat(s, [i], rest);
      ExecuteOne(s, i);
    }
  }

  lemma {:induction false} StatDebt(threads: seq<Thread>, path: Path)
    requires forall i :: 0 <= i < |threads| ==> threads[i].pc == Stat
    ensures Debt(threads, path) == 0
  {
    NoDebt(threads, path);
  }

  lemma CountAfterTwo(h: seq<Entry>, e: Entry)
    ensures Count(IsAlert, h + [e] + [e]) == Count(IsAlert, h) + (if e.Alert? then 2 else 0)
    ensures Count(IsResolved, h + [e] + [e]) == Count(IsResolved, h) + (if e.Resolved? then 2 else 0)
  {
    CountAfter(h, e);
    CountAfter(h + [e], e);
  }

  lemma CountAfterTwoRecoveries(h: seq<Entry>)
    ensures
      var h' := h + [Resolved(true)] + [Resolved(true)] + [Removed];
      Count(IsAlert, h') == Count(IsAlert, h) && Count(IsResolved, h') == Count(IsResolved, h) + 2
  {
    CountAfterTwo(h, Resolved(true));
    CountAfter(h + [Resolved(true)] + [Resolved(true)], Removed);
  }

  /** After the race of two alerts there is an alert too many. */
  lemma AlertsUnbalance(s: System, i: nat, j: nat, path: Path) returns (schedule: seq<nat>)
    requires BothAt(s, i, j, path, Faulty, Stat) && path !in s.world.files
    ensures
      var s' := Execute(s, schedule);
      && Sent(s'.world, path) && Excess(s'.world, path) == Excess(s.world, path) + 1
      && s'.threads == s.threads[i := Advance(s.threads[i])][j := Advance(s.threads[j])]
  {
    schedule := AlertsRace(s, i, j, path);
    CountAfterTwo(History(s.world.log, path), Alert(true));
  }

  /** After the race of two recoveries there is a resolved mail too many. */
  lemma RecoveriesUnbalance(s: System, i: nat, j: nat, path: Path) returns (schedule: seq<nat>)
    requires BothAt(s, i, j, path, Recovered, Stat) && Sent(s.world, path)
    ensures
      var s' := Execute(s, schedule);
      && path !in s'.world.files && Excess(s'.world, path) == Excess(s.world, path) - 1
      && s'.threads == s.threads[i := Advance(s.threads[i])][j := Advance(s.threads[j])]
  {
    var race := RecoveriesRace(s, i, j, path);
    var r := Execute(s, race);
    Round(r, i, j);
    HistoryAppend(r.world.log, Record(path, Removed), path);
    CountAfterTwoRecoveries(History(s.world.log, path));
    schedule := race + [i, j];
    ExecuteConcat(s, race, [i, j]);
  }

  /** Two goroutines about to send the same verdict can leave the balance wrong for good. */
  lemma SameVerdictRace(s: System, i: nat, j: nat, path: Path, v: Verdict) returns (schedule: seq<nat>)
    requires BothAt(s, i, j, path, v, Stat) && FaultFreeCalls(s) && Awaits(s.world, path, v)
    requires Excess(s.world, path) == 0
    requires forall k :: 0 <= k < |s.threads| ==> s.threads[k].pc == Stat
    ensures
      var s' := Execute(s, schedule);
      && Excess(s'.world, path) != 0 && (path in s'.world.files ==> Sent(s'.world, path))
      && FaultFreeCalls(s') && (forall k :: 0 <= k < |s'.threads| ==> s'.threads[k].pc == Stat)
  {
    if v == Faulty {
      schedule := AlertsUnbalance(s, i, j, path);
    } else {
      schedule := RecoveriesUnbalance(s, i, j, path);
    }
    ExecuteKeepsFaultFree(s, schedule);
  }

  lemma {:induction false} ExecuteKeepsFaultFree(s: System, schedule: seq<nat>)
    requires FaultFreeCalls(s)
    ensures FaultFreeCalls(Execute(s, schedule))
  {
    if schedule != [] {
      var init := schedule[..|schedule| - 1];
      ExecuteKeepsFaultFree(s, init);
      StepKeepsFaultFree(Execute(s, init), schedule[|schedule| - 1]);
    }
  }

  /** A world in which two goroutines with the same verdict find something to do. */
  function WorldFor(path: Path, v: Verdict): World {
    Run(EMPTY, if v == Faulty then [] else [Event(path, Faulty)])
  }

  lemma WorldForAwaits(path: Path, v: Verdict)
    ensures Awaits(WorldFor(path, v), path, v) && Even(WorldFor(path, v), path)
  {
    RaceStartHistory(v, v, path);
    CountAfter([], Alert(true));
    assert [] + [Alert(true)] == [Alert(true)];
  }

  lemma StartsFaultFree(w: World, programs: seq<seq<Call>>)
    requires NoFaults(programs)
    ensures FaultFreeCalls(Start(w, programs))
  {
  }

  /** Two goroutines that send the same verdict for a path: from a balanced ledger that holds nothing, or one alert, some
      complete schedule leaves alerts and resolved mails out of balance. */
  lemma TwoSidesRace(programs: seq<seq<Call>>, i: nat, j: nat, path: Path, v: Verdict) returns (schedule: seq<nat>)
    requires NoFaults(programs) && i < |programs| && j < |programs| && i != j
    requires Sends(programs[i], path, v) && Sends(programs[j], path, v)
    ensures Even(WorldFor(path, v), path)
    ensures
      var s := Execute(Start(WorldFor(path, v), programs), schedule);
      AllDone(s) && Excess(s.world, path) != 0
  {
    var start := Start(WorldFor(path, v), programs);
    WorldForAwaits(path, v);
    StartsFaultFree(WorldFor(path, v), programs);
    var a := RunUpToVerdict(start, i, path, v);
    var s1 := Execute(start, a);
    var b := RunUpToVerdict(s1, j, path, v);
    var s2 := Execute(s1, b);
    var race := SameVerdictRace(s2, i, j, path, v);
    var s3 := Execute(s2, race);
    var rest := CompleteInTurn(s3, |s3.threads|, path);
    var s4 := Execute(s3, rest);
    StatDebt(s3.threads, path);
    NoDebt(s4.threads, path);
    schedule := a + b + race + rest;
    ExecuteConcat(start, a, b);
    ExecuteConcat(start, a + b, race);
    ExecuteConcat(start, a + b + race, rest);
  }

  /** From every balanced world, every complete schedule keeps the balance of the path. */
  ghost predicate KeepsEven(programs: seq<seq<Call>>, path: Path) {
    forall w, schedule :: Even(w, path) && AllDone(Execute(Start(w, programs), schedule)) ==>
      Even(Execute(Start(w, programs), schedule).world, path)
  }

  /** Exactly when interleaving keeps alerts and resolved mails in balance: goroutines without failures do, from every
      balanced world and under every complete schedule, if and only if at most one of them alerts the file and at most
      one recovers it. */
  lemma BalanceExactly(programs: seq<seq<Call>>, path: Path)
    requires NoFaults(programs)
    ensures KeepsEven(programs, path) <==> OneSided(programs, path)
  {
    if OneSided(programs, path) {
      forall w, schedule | Even(w, path) && AllDone(Execute(Start(w, programs), schedule))
        ensures Even(Execute(Start(w, programs), schedule).world, path)
      {
        OneSidedKeepsEven(w, programs, schedule, path);
      }
    } else {
      var i, j, v: Verdict :| 0 <= i < |programs| && 0 <= j < |programs| && Sends(programs[i], path, v) &&
        Sends(programs[j], path, v) && i != j;
      var schedule := TwoSidesRace(programs, i, j, path, v);
      assert !Even(Execute(Start(WorldFor(path, v), programs), schedule).world, path);
    }
  }

  // ---------------------------------------------------------------- Healthy

  ghost predicate AllEven(w: World) {
    forall path: Path :: path.dir == AlertDir ==> Even(w, path)
  }

  /** In balance, Healthy and the mail history say the same. */
  lemma EvenIsHonest(w: World)
    requires AllEven(w)
    ensures HealthyListing(w) <==> MailBalance(w)
  {
    forall path: Path | path.dir == AlertDir
      ensures path in w.files <==> Count(IsAlert, History(w.log, path)) != Count(IsResolved, History(w.log, path))
    {
      assert Even(w, path);
    }
  }

  lemma UntouchedIsEven(w: World, path: Path)
    requires Untouched(w, path)
    ensures Even(w, path)
  {
  }

  lemma AgreeKeepsEven(w: World, w': World, path: Path)
    requires Agree(w, w', path)
    ensures Excess(w', path) == Excess(w, path)
    ensures Even(w, path) <==> Even(w', path)
  {
  }

  lemma CountAfterRecovery(h: seq<Entry>)
    ensures Count(IsAlert, h + [Resolved(true), Removed]) == Count(IsAlert, h)
    ensures Count(IsResolved, h + [Resolved(true), Removed]) == Count(IsResolved, h) + 1
  {
    CountAfter(h, Resolved(true));
    CountAfter(h + [Resolved(true)], Removed);
    assert (h + [Resolved(true)]) + [Removed] == h + [Resolved(true), Removed];
  }

  /** A call without failures does not change the balance. */
  lemma DeliverKeepsExcess(w: World, e: Event, path: Path)
    requires path in w.files ==> Sent(w, path)
    ensures
      var w' := Deliver(w, Call(e, NO_FAULTS));
      (path in w'.files ==> Sent(w', path)) && Excess(w', path) == Excess(w, path)
  {
    if e.path != path {
      DeliverFrame(w, Call(e, NO_FAULTS), path);
    } else {
      FaultlessStep(w, e);
      if e.verdict == Faulty {
        CountAfter(History(w.log, path), Alert(true));
      } else {
        CountAfterRecovery(History(w.log, path));
      }
    }
  }

  lemma {:induction false} CallsKeepExcess(w: World, calls: seq<Call>, path: Path)
    requires path in w.files ==> Sent(w, path)
    requires forall c :: c in calls ==> c.faults == NO_FAULTS
    ensures
      var w' := RunCalls(w, calls);
      (path in w'.files ==> Sent(w', path)) && Excess(w', path) == Excess(w, path)
  {
    if calls != [] {
      var init, last := calls[..|calls| - 1], calls[|calls| - 1];
      assert last in calls && forall c :: c in init ==> c in calls;
      CallsKeepExcess(w, init, path);
      DeliverKeepsExcess(RunCalls(w, init), last.event, path);
    }
  }

  lemma RunKeepsExcess(w: World, events: seq<Event>, path: Path)
    requires path in w.files ==> Sent(w, path)
    ensures
      var w' := Run(w, events);
      (path in w'.files ==> Sent(w', path)) && Excess(w', path) == Excess(w, path)
  {
    CallsKeepExcess(w, Faultless(events), path);
  }

  lemma RunKeepsAllEven(w: World, events: seq<Event>)
    requires AllEven(w)
    ensures AllEven(Run(w, events))
  {
    forall path: Path | path.dir == AlertDir
      ensures Even(Run(w, events), path)
    {
      assert Even(w, path);
      RunKeepsExcess(w, events, path);
    }
  }

  /** Files without leftovers of failed writes. */
  predicate Clean(files: map<Path, string>) {
    forall path :: path in files ==> files[path] == SENT
  }

  ghost predicate CleanSystem(s: System) {
    && Clean(s.world.files) && FaultFreeCalls(s)
    && forall i :: 0 <= i < |s.threads| ==> s.threads[i].pc != Truncate
  }

  lemma StepKeepsClean(s: System, i: nat)
    requires CleanSystem(s)
    ensures CleanSystem(Step(s, i))
  {
    StepKeepsFaultFree(s, i);
    if i < |s.threads| && !Done(s.threads[i]) {
      assert s.threads[i].todo[0] in s.threads[i].todo;
    }
  }

  lemma {:induction false} ExecuteKeepsClean(s: System, schedule: seq<nat>)
    requires CleanSystem(s)
    ensures CleanSystem(Execute(s, schedule))
  {
    if schedule != [] {
      var init := schedule[..|schedule| - 1];
      ExecuteKeepsClean(s, init);
      StepKeepsClean(Execute(s, init), schedule[|schedule| - 1]);
    }
  }

  /** Recoveries for all files empty the ledger. */
  lemma {:induction false} RecoverAll(w: World) returns (events: seq<Event>)
    requires Clean(w.files)
    ensures Run(w, events).files == map[]
    decreases |w.files|
  {
    if w.files == map[] {
      events := [];
      assert Run(w, []) == w;
    } else {
      var path :| path in w.files;
      var e := Event(path, Recovered);
      var w1 := Run(w, [e]);
      assert [] + [e] == [e] && Run(w, []) == w;
      RunStep(w, [], e);
      assert w1.files == w.files - {path};
      assert w1.files.Keys == w.files.Keys - {path};
      var rest := RecoverAll(w1);
      events := [e] + rest;
      RunConcat(w, [e], rest);
    }
  }

  /** After goroutines without failures, whatever their schedule, and any events without failures after them, Healthy
      computed from the directory agrees with the mail history. */
  ghost predicate KeepsHonest(programs: seq<seq<Call>>) {
    forall w, schedule, events :: AllEven(w) && AllDone(Execute(Start(w, programs), schedule)) ==>
      var w' := Run(Execute(Start(w, programs), schedule).world, events);
      HealthyListing(w') <==> MailBalance(w')
  }

  ghost predicate AllOneSided(programs: seq<seq<Call>>) {
    forall path: Path :: path.dir == AlertDir ==> OneSided(programs, path)
  }

  lemma OneSidedKeepsAllEven(w: World, programs: seq<seq<Call>>, schedule: seq<nat>)
    requires NoFaults(programs) && AllOneSided(programs) && AllEven(w)
    requires AllDone(Execute(Start(w, programs), schedule))
    ensures AllEven(Execute(Start(w, programs), schedule).world)
  {
    forall path: Path | path.dir == AlertDir
      ensures Even(Execute(Start(w, programs), schedule).world, path)
    {
      assert Even(w, path);
      OneSidedKeepsEven(w, programs, schedule, path);
    }
  }

  /** The world in which a race starts is clean and in balance throughout. */
  lemma WorldForIsEven(path: Path, v: Verdict)
    ensures AllEven(WorldFor(path, v)) && Clean(WorldFor(path, v).files)
  {
    forall q: Path
      ensures Even(WorldFor(path, v), q)
    {
      UntouchedIsEven(EMPTY, q);
      RunKeepsExcess(EMPTY, if v == Faulty then [] else [Event(path, Faulty)], q);
    }
    forall q | q in WorldFor(path, v).files
      ensures WorldFor(path, v).files[q] == SENT
    {
      assert Even(WorldFor(path, v), q);
    }
  }

  /** Two goroutines with the same verdict for one file: after some schedule and some recoveries the alert directory is
      empty, and the mails do not balance. */
  lemma RaceTurnsDishonest(programs: seq<seq<Call>>, i: nat, j: nat, path: Path, v: Verdict)
    returns (schedule: seq<nat>, events: seq<Event>)
    requires NoFaults(programs) && i < |programs| && j < |programs| && i != j && path.dir == AlertDir
    requires Sends(programs[i], path, v) && Sends(programs[j], path, v)
    ensures AllEven(WorldFor(path, v)) && AllDone(Execute(Start(WorldFor(path, v), programs), schedule))
    ensures
      var w := Run(Execute(Start(WorldFor(path, v), programs), schedule).world, events);
      HealthyListing(w) && !MailBalance(w)
  {
    var start := Start(WorldFor(path, v), programs);
    WorldForIsEven(path, v);
    StartsFaultFree(WorldFor(path, v), programs);
    schedule := TwoSidesRace(programs, i, j, path, v);
    ExecuteKeepsClean(start, schedule);
    var w := Execute(start, schedule).world;
    events := RecoverAll(w);
    RunKeepsExcess(w, events, path);
  }

  /** Exactly when Healthy can be trusted after goroutines: if and only if for every file of the alert directory at most
      one of them alerts it and at most one recovers it. */
  lemma HonestExactly(programs: seq<seq<Call>>)
    requires NoFaults(programs)
    ensures KeepsHonest(programs) <==> AllOneSided(programs)
  {
    if AllOneSided(programs) {
      forall w, schedule, events | AllEven(w) && AllDone(Execute(Start(w, programs), schedule))
        ensures
          var w' := Run(Execute(Start(w, programs), schedule).world, events);
          HealthyListing(w') <==> MailBalance(w')
      {
        OneSidedKeepsAllEven(w, programs, schedule);
        RunKeepsAllEven(Execute(Start(w, programs), schedule).world, events);
        EvenIsHonest(Run(Execute(Start(w, programs), schedule).world, events));
      }
    } else {
      var path: Path :| path.dir == AlertDir && !OneSided(programs, path);
      var i, j, v: Verdict :| 0 <= i < |programs| && 0 <= j < |programs| && Sends(programs[i], path, v) &&
        Sends(programs[j], path, v) && i != j;
      var schedule, events := RaceTurnsDishonest(programs, i, j, path, v);
    }
  }

  /** Two goroutines with one alert each for one absent file, the smallest such race. */
  lemma TwoAlertsTurnDishonest(path: Path) returns (schedule: seq<nat>, events: seq<Event>)
    requires path.dir == AlertDir
    ensures
      var call := Call(Event(path, Faulty), NO_FAULTS);
      var s := Execute(Start(EMPTY, [[call], [call]]), schedule);
      var w := Run(s.world, events);
      AllDone(s) && HealthyListing(w) && !MailBalance(w)
  {
    var call := Call(Event(path, Faulty), NO_FAULTS);
    assert call in [call];
    assert Sends([call], path, Faulty);
    schedule, events := RaceTurnsDishonest([[call], [call]], 0, 1, path, Faulty);
    assert WorldFor(path, Faulty) == EMPTY;
  }
}
