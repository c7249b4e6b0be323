/** Exactly when goroutines that drive the ledger at the same time do what they do one after the other. */
module Races {
  import opened Basics
  import opened Alerts
  import opened Histories
  import opened Goroutines

  /** The calls of goroutines that send these events and meet no failure. */
  function FaultlessAll(programs: seq<seq<Event>>): (calls: seq<seq<Call>>)
    ensures |calls| == |programs|
  {
    seq(|programs|, i requires 0 <= i < |programs| => Faultless(programs[i]))
  }

  /** From every world, every complete schedule leaves the files and the per-path histories of the sequential run. */
  ghost predicate Independent(programs: seq<seq<Call>>) {
    forall w, schedule :: AllDone(Execute(Start(w, programs), schedule)) ==>
      SameByPath(Execute(Start(w, programs), schedule).world, RunCalls(w, Joined(programs)))
  }

  lemma {:induction false} ExecuteConcat(s: System, a: seq<nat>, b: seq<nat>)
    ensures Execute(s, a + b) == Execute(Execute(s, a), b)
  {
    if b == [] {
      assert a + b == a;
    } else {
      ExecuteConcat(s, a, b[..|b| - 1]);
      assert (a + b)[..|a + b| - 1] == a + b[..|b| - 1];
    }
  }

  lemma ExecuteOne(s: System, i: nat)
    ensures Execute(s, [i]) == Step(s, i)
  {
    ExecuteStep(s, [], i);
    assert [] + [i] == [i];
  }

  /** Thread i is about to start a call for this path. */
  predicate Arrived(s: System, i: nat, path: Path) {
    i < |s.threads| && !Done(s.threads[i]) && s.threads[i].todo[0].event.path == path && s.threads[i].pc == Stat
  }

  /** The calls from the first one for the path on. */
  function From(calls: seq<Call>, path: Path): seq<Call> {
    if calls == [] || calls[0].event.path == path then calls else From(calls[1..], path)
  }

  /** No call of any goroutine meets a failure. */
  ghost predicate FaultFreeCalls(s: System) {
    forall i, c :: 0 <= i < |s.threads| && c in s.threads[i].todo ==> c.faults == NO_FAULTS
  }

  lemma StepKeepsFaultFree(s: System, i: nat)
    requires FaultFreeCalls(s)
    ensures FaultFreeCalls(Step(s, i))
  {
  }

  /** Lets thread i run up to its first call for the path; nothing else moves and the path is not touched. */
  lemma {:induction false} RunUpTo(s: System, i: nat, path: Path) returns (schedule: seq<nat>)
    requires i < |s.threads| && Owns(s.threads[i].todo, path) && FaultFreeCalls(s)
    requires s.threads[i].todo[0].event.path == path ==> s.threads[i].pc == Stat
    ensures
      var s' := Execute(s, schedule);
      && |s'.threads| == |s.threads| && Arrived(s', i, path) && FaultFreeCalls(s')
      && s'.threads[i].todo == From(s.threads[i].todo, path)
      && (forall k :: 0 <= k < |s.threads| && k != i ==> s'.threads[k] == s.threads[k])
      && Agree(s.world, s'.world, path)
    decreases |s.threads[i].todo|, Rank(s.threads[i].pc)
  {
    var t := s.threads[i];
    if t.todo[0].event.path == path {
      schedule := [];
    } else {
      MicroFrame(s.world, t, path);
      MicroProgress(s.world, t);
      StepKeepsFaultFree(s, i);
      var c :| c in t.todo && c.event.path == path;
      assert c in t.todo[1..];
      var rest := RunUpTo(Step(s, i), i, path);
      schedule := [i] + rest;
      ExecuteConcat(s, [i], rest);
      ExecuteOne(s, i);
    }
  }

  /** Threads i and j each take one step. */
  lemma Round(s: System, i: nat, j: nat)
    requires i < |s.threads| && j < |s.threads| && i != j && !Done(s.threads[i]) && !Done(s.threads[j])
    ensures
      var (w1, a) := Micro(s.world, s.threads[i]);
      var (w2, b) := Micro(w1, s.threads[j]);
      Execute(s, [i, j]) == System(w2, s.threads[i := a][j := b])
  {
    ExecuteOne(s, i);
    ExecuteStep(s, [i], j);
    assert [i] + [j] == [i, j];
  }

  /** Both threads are about to take this step of a call for the path. */
  predicate BothAt(s: System, i: nat, j: nat, path: Path, v: Verdict, pc: Pc) {
    && i < |s.threads| && j < |s.threads| && i != j
    && At(s.threads[i], path, v, pc) && At(s.threads[j], path, v, pc)
  }

  predicate At(t: Thread, path: Path, v: Verdict, pc: Pc) {
    !Done(t) && t.todo[0] == Call(Event(path, v), NO_FAULTS) && t.pc == pc
  }

  function BothPut(threads: seq<Thread>, i: nat, j: nat, pc: Pc): seq<Thread>
    requires i < |threads| && j < |threads|
  {
    threads[i := threads[i].(pc := pc)][j := threads[j].(pc := pc)]
  }

  lemma HistoryOfTwo(log: seq<Record>, path: Path, e: Entry)
    ensures History(log + [Record(path, e)] + [Record(path, e)], path) == History(log, path) + [e] + [e]
  {
    HistoryAppend(log, Record(path, e), path);
    HistoryAppend(log + [Record(path, e)], Record(path, e), path);
  }

  /** Two alerts for an absent file: both find it absent, both write it, and both mail. */
  lemma AlertsRace(s: System, i: nat, j: nat, path: Path) returns (schedule: seq<nat>)
    requires BothAt(s, i, j, path, Faulty, Stat) && path !in s.world.files
    ensures History(Execute(s, schedule).world.log, path) == History(s.world.log, path) + [Alert(true)] + [Alert(true)]
    ensures
      var s' := Execute(s, schedule);
      && Sent(s'.world, path)
      && s'.threads == s.threads[i := Advance(s.threads[i])][j := Advance(s.threads[j])]
  {
    var s1, s2 := Execute(s, [i, j]), Execute(Execute(s, [i, j]), [i, j]);
    Round(s, i, j);
    assert s1 == System(s.world, BothPut(s.threads, i, j, Write));
    Round(s1, i, j);
    assert s2.world.log == s.world.log && s2.threads == BothPut(s.threads, i, j, MailAlert);
    Round(s2, i, j);
    HistoryOfTwo(s.world.log, path, Alert(true));
    schedule := [i, j] + [i, j] + [i, j];
    ExecuteConcat(s, [i, j], [i, j]);
    ExecuteConcat(s, [i, j] + [i, j], [i, j]);
  }

  /** Two recoveries of a SENT file: both read it, and both mail. */
  lemma RecoveriesRace(s: System, i: nat, j: nat, path: Path) returns (schedule: seq<nat>)
    requires BothAt(s, i, j, path, Recovered, Stat) && Sent(s.world, path)
    ensures History(Execute(s, schedule).world.log, path) == History(s.world.log, path) + [Resolved(true)] + [Resolved(true)]
    ensures
      var s' := Execute(s, schedule);
      && BothAt(s', i, j, path, Recovered, Remove) && s'.world.files == s.world.files
      && s'.threads == BothPut(s.threads, i, j, Remove)
  {
    var s1, s2 := Execute(s, [i, j]), Execute(Execute(s, [i, j]), [i, j]);
    Round(s, i, j);
    assert s1 == System(s.world, BothPut(s.threads, i, j, Read));
    Round(s1, i, j);
    assert s2 == System(s.world, BothPut(s.threads, i, j, MailResolved));
    Round(s2, i, j);
    HistoryOfTwo(s.world.log, path, Resolved(true));
    schedule := [i, j] + [i, j] + [i, j];
    ExecuteConcat(s, [i, j], [i, j]);
    ExecuteConcat(s, [i, j] + [i, j], [i, j]);
  }

  /** An alert and a recovery of an absent file: the alert writes, and before it mails the recovery reads the file and
      mails that it is resolved. */
  lemma RecoveryOvertakes(s: System, i: nat, j: nat, path: Path) returns (schedule: seq<nat>)
    requires i < |s.threads| && j < |s.threads| && i != j
    requires At(s.threads[i], path, Faulty, Stat) && At(s.threads[j], path, Recovered, Stat) && path !in s.world.files
    ensures History(Execute(s, schedule).world.log, path) == History(s.world.log, path) + [Resolved(true)]
  {
    var s1 := Step(s, i);
    var s2 := Step(s1, i);
    assert At(s2.threads[i], path, Faulty, MailAlert) && s2.threads[j] == s.threads[j];
    assert Sent(s2.world, path) && s2.world.log == s.world.log;
    var s3 := Step(s2, j);
    assert At(s3.threads[j], path, Recovered, Read) && s3.world == s2.world;
    var s4 := Step(s3, j);
    assert At(s4.threads[j], path, Recovered, MailResolved) && s4.world == s2.world;
    HistoryAppend(s.world.log, Record(path, Resolved(true)), path);
    schedule := [i, i] + [j, j] + [j];
    ExecuteTwo(s, [], i, i);
    assert [] + [i, i] == [i, i];
    ExecuteTwo(s, [i, i], j, j);
    ExecuteStep(s, [i, i] + [j, j], j);
  }

  lemma {:induction false} MailsGrow(h: seq<Entry>, h': seq<Entry>)
    requires h <= h'
    ensures Mails(h) <= Mails(h')
  {
    if |h| < |h'| {
      MailsGrow(h, h'[..|h'| - 1]);
    } else {
      assert h == h';
    }
  }

  /** A step only adds to the history of a path. */
  lemma StepAdds(s: System, i: nat, path: Path)
    ensures History(s.world.log, path) <= History(Step(s, i).world.log, path)
  {
    if i < |s.threads| && !Done(s.threads[i]) {
      MicroLog(s.world, s.threads[i], path);
    }
  }

  lemma {:induction false} ExecuteAdds(s: System, schedule: seq<nat>, path: Path)
    ensures History(s.world.log, path) <= History(Execute(s, schedule).world.log, path)
  {
    if schedule != [] {
      var init := schedule[..|schedule| - 1];
      ExecuteAdds(s, init, path);
      StepAdds(Execute(s, init), schedule[|schedule| - 1], path);
    }
  }

  /** Every system can be run until all goroutines are done. */
  lemma {:induction false} Complete(s: System) returns (schedule: seq<nat>)
    ensures AllDone(Execute(s, schedule))
    decreases Work(s.threads)
  {
    if i: nat :| i < |s.threads| && !Done(s.threads[i]) {
      WorkDecreases(s.world, s.threads, i);
      var rest := Complete(Step(s, i));
      schedule := [i] + rest;
      ExecuteConcat(s, [i], rest);
      ExecuteOne(s, i);
    } else {
      schedule := [];
    }
  }

  /** Lets threads i and j run up to their first calls for the path, one after the other. */
  lemma Meet(w: World, programs: seq<seq<Event>>, i: nat, j: nat, path: Path) returns (schedule: seq<nat>)
    requires i < |programs| && j < |programs| && i != j
    requires Owns(Faultless(programs[i]), path) && Owns(Faultless(programs[j]), path)
    ensures
      var s := Execute(Start(w, FaultlessAll(programs)), schedule);
      && |s.threads| == |programs| && Agree(w, s.world, path)
      && Arrived(s, i, path) && s.threads[i].todo == From(Faultless(programs[i]), path)
      && Arrived(s, j, path) && s.threads[j].todo == From(Faultless(programs[j]), path)
      && s.threads[i].todo[0].faults == NO_FAULTS && s.threads[j].todo[0].faults == NO_FAULTS
  {
    var s := Start(w, FaultlessAll(programs));
    var a := RunUpTo(s, i, path);
    var b := RunUpTo(Execute(s, a), j, path);
    schedule := a + b;
    ExecuteConcat(s, a, b);
    var met := Execute(s, schedule);
    assert met.threads[i].todo[0] in met.threads[i].todo && met.threads[j].todo[0] in met.threads[j].todo;
  }

  /** The verdict of the first call for the path. */
  function FirstVerdict(program: seq<Event>, path: Path): Verdict
    requires Owns(Faultless(program), path)
  {
    FromOwner(Faultless(program), path);
    From(Faultless(program), path)[0].event.verdict
  }

  lemma {:induction false} FromOwner(calls: seq<Call>, path: Path)
    requires Owns(calls, path)
    ensures From(calls, path) != []
  {
    if calls[0].event.path != path {
      var c :| c in calls && c.event.path == path;
      assert c in calls[1..];
      FromOwner(calls[1..], path);
    }
  }

  /** After an optional alert, the sequential run leaves alternating mails. */
  lemma SequentialAlternates(before: seq<Event>, programs: seq<seq<Event>>, path: Path)
    ensures Alternating(Mails(History(RunCalls(Run(EMPTY, before), Joined(FaultlessAll(programs))).log, path)))
  {
    var same: seq<Event> -> seq<Event> := program => program;
    JoinedFaultless(same, programs, FaultlessAll(programs));
    RunConcat(EMPTY, before, FlatMap(same, programs));
    MailsAlternate(EMPTY, before + FlatMap(same, programs), path);
  }

  /** Mails that do not alternate never come right again. */
  lemma NeverRight(s: System, schedule: seq<nat>, path: Path)
    requires !Alternating(Mails(History(s.world.log, path)))
    ensures !Alternating(Mails(History(Execute(s, schedule).world.log, path)))
  {
    ExecuteAdds(s, schedule, path);
    MailsGrow(History(s.world.log, path), History(Execute(s, schedule).world.log, path));
  }

  /** A start from which two goroutines with a common path race. */
  function RaceStart(a: Verdict, b: Verdict, path: Path): seq<Event> {
    if a == b == Recovered then [Event(path, Faulty)] else []
  }

  lemma RaceStartHistory(a: Verdict, b: Verdict, path: Path)
    ensures
      var w := Run(EMPTY, RaceStart(a, b, path));
      if a == b == Recovered then Sent(w, path) && History(w.log, path) == [Alert(true)]
      else path !in w.files && History(w.log, path) == []
  {
    assert Run(EMPTY, []) == EMPTY;
    if a == b == Recovered {
      RunStep(EMPTY, [], Event(path, Faulty));
      assert [] + [Event(path, Faulty)] == [Event(path, Faulty)];
      AnnounceEffect(EMPTY, path, NO_FAULTS, path);
    }
  }

  /** Two goroutines at their first calls for a path can make its mails go wrong. */
  lemma Race(s: System, i: nat, j: nat, path: Path, a: Verdict, b: Verdict) returns (schedule: seq<nat>)
    requires i < |s.threads| && j < |s.threads| && i != j
    requires At(s.threads[i], path, a, Stat) && At(s.threads[j], path, b, Stat)
    requires if a == b == Recovered then Sent(s.world, path) && History(s.world.log, path) == [Alert(true)]
             else path !in s.world.files && History(s.world.log, path) == []
    ensures !Alternating(Mails(History(Execute(s, schedule).world.log, path)))
  {
    if a == b == Faulty {
      schedule := AlertsRace(s, i, j, path);
      TwiceIsWrong(History(s.world.log, path), Alert(true));
    } else if a == b == Recovered {
      schedule := RecoveriesRace(s, i, j, path);
      TwiceIsWrong(History(s.world.log, path), Resolved(true));
    } else {
      if a == Faulty {
        schedule := RecoveryOvertakes(s, i, j, path);
      } else {
        schedule := RecoveryOvertakes(s, j, i, path);
      }
      ResolvedFirstIsWrong();
    }
  }

  /** The same mail twice in a row does not alternate. */
  lemma TwiceIsWrong(h: seq<Entry>, e: Entry)
    requires e.Alert? || e.Resolved?
    ensures !Alternating(Mails(h + [e] + [e]))
  {
    MailsStep(h, e);
    MailsStep(h + [e], e);
    NotAlternating(Mails(h), if e.Alert? then Faulty else Recovered);
  }

  lemma NotAlternating(mails: seq<Verdict>, v: Verdict)
    ensures !Alternating(mails + [v] + [v])
  {
    var n := |mails|;
    assert (mails + [v] + [v])[n] == (mails + [v] + [v])[n + 1];
  }

  lemma ResolvedFirstIsWrong()
    ensures !Alternating(Mails([] + [Resolved(true)]))
  {
    MailsStep([], Resolved(true));
    assert Mails([] + [Resolved(true)])[0] == Recovered;
  }

  /** Two goroutines with a common path: some world, either empty or with the one alert, and some complete schedule tell
      them from the sequential run. */
  lemma SharedPathRaces(programs: seq<seq<Event>>, i: nat, j: nat, path: Path) returns (w: World, schedule: seq<nat>)
    requires i < |programs| && j < |programs| && i != j
    requires Owns(Faultless(programs[i]), path) && Owns(Faultless(programs[j]), path)
    ensures w == EMPTY || w == Run(EMPTY, [Event(path, Faulty)])
    ensures
      var s := Execute(Start(w, FaultlessAll(programs)), schedule);
      && AllDone(s)
      && !Alternating(Mails(History(s.world.log, path)))
      && Alternating(Mails(History(RunCalls(w, Joined(FaultlessAll(programs))).log, path)))
  {
    var a, b := FirstVerdict(programs[i], path), FirstVerdict(programs[j], path);
    w := Run(EMPTY, RaceStart(a, b, path));
    RaceStartHistory(a, b, path);
    var start := Start(w, FaultlessAll(programs));
    var meet := Meet(w, programs, i, j, path);
    var met := Execute(start, meet);
    var race := Race(met, i, j, path, a, b);
    var rest := Complete(Execute(met, race));
    NeverRight(Execute(met, race), rest, path);
    SequentialAlternates(RaceStart(a, b, path), programs, path);
    schedule := meet + race + rest;
    ExecuteConcat(start, meet, race);
    ExecuteConcat(start, meet + race, rest);
  }

  /** Exactly when the schedule does not matter: goroutines that meet no failure do from every world and under every
      complete schedule what they do one after the other if and only if no two of them have calls for the same path. */
  lemma IndependentExactly(programs: seq<seq<Event>>)
    ensures Independent(FaultlessAll(programs)) <==> Disjoint(FaultlessAll(programs))
  {
    var calls := FaultlessAll(programs);
    if Disjoint(calls) {
      forall w, schedule | AllDone(Execute(Start(w, calls), schedule))
        ensures SameByPath(Execute(Start(w, calls), schedule).world, RunCalls(w, Joined(calls)))
      {
        ScheduleIndependence(w, calls, schedule);
      }
    } else {
      var i, j, path :| 0 <= i < |calls| && 0 <= j < |calls| && Owns(calls[i], path) && Owns(calls[j], path) && i != j;
      var w, schedule := SharedPathRaces(programs, i, j, path);
      assert !SameByPath(Execute(Start(w, calls), schedule).world, RunCalls(w, Joined(calls)));
    }
  }

  /** The smallest race: two goroutines with one alert each for one absent file. */
  lemma TwoAlertsRace(path: Path)
    ensures
      var call := Call(Event(path, Faulty), NO_FAULTS);
      var programs := [[call], [call]];
      var s := Execute(Start(EMPTY, programs), [0, 1, 0, 1, 0, 1]);
      && !Disjoint(programs)
      && AllDone(s)
      && History(s.world.log, path) == [Alert(true), Alert(true)]
      && History(RunCalls(EMPTY, Joined(programs)).log, path) == [Alert(true)]
  {
    var call := Call(Event(path, Faulty), NO_FAULTS);
    var programs := [[call], [call]];
    SameFileRace(path);
    assert call in programs[0] && call in programs[1];
    assert Owns(programs[0], path) && Owns(programs[1], path);
    JoinedTwo([call], [call]);
    assert [call] + [call] == [call, call];
  }

  lemma JoinedTwo(a: seq<Call>, b: seq<Call>)
    ensures Joined([a, b]) == a + b
  {
    assert [a, b][..1] == [a] && [a][..0] == [];
    assert Joined([a]) == Joined([]) + a;
  }
}
