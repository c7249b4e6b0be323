/** Goroutines that drive the ledger at the same time. Every file operation and every mail is a step of its own, and
    the steps of different goroutines interleave freely. */
module Goroutines {
  import opened Basics
  import opened Alerts

  /** The operation a goroutine performs next for the first of its remaining calls. */
  datatype Pc = Stat | Read | Truncate | Write | MailAlert | MailResolved | Remove

  datatype Thread = Thread(todo: seq<Call>, pc: Pc)

  predicate Done(t: Thread) {
    t.todo == []
  }

  function Advance(t: Thread): Thread
    requires !Done(t)
  {
    Thread(t.todo[1..], Stat)
  }

  /** One step of a goroutine. */
  function Micro(w: World, t: Thread): (World, Thread)
    requires !Done(t)
  {
    var Call(Event(path, verdict), f) := t.todo[0];
    match t.pc
    case Stat =>
      if path in w.files || f.stat then (w, t.(pc := Read))
      else if verdict == Faulty then (w, t.(pc := Write))
      else (w, Advance(t))
    case Read =>
      if path !in w.files || f.read then (w, Advance(t))
      else if verdict == Faulty && w.files[path] != SENT then (w, t.(pc := Truncate))
      else if verdict == Recovered && w.files[path] == SENT then (w, t.(pc := MailResolved))
      else (w, Advance(t))
    case Truncate =>
      if path !in w.files || f.truncate then (w, Advance(t))
      else (w.(files := w.files[path := ""]), t.(pc := Write))
    case Write =>
      (match f.write
       case Written => (w.(files := w.files[path := SENT]), t.(pc := MailAlert))
       case NotOpened => (w, Advance(t))
       case Interrupted(left) =>
         (World(w.files[path := left], if left == SENT then w.log + [Record(path, Unannounced)] else w.log), Advance(t)))
    case MailAlert => (w.(log := w.log + [Record(path, Alert(!f.mail))]), Advance(t))
    case MailResolved => (w.(log := w.log + [Record(path, Resolved(!f.mail))]), t.(pc := Remove))
    case Remove =>
      if path !in w.files || f.remove then (w, Advance(t))
      else (World(w.files - {path}, w.log + [Record(path, Removed)]), Advance(t))
  }

  function Rank(pc: Pc): nat {
    match pc
    case Stat => 6
    case Read => 5
    case Truncate => 4
    case Write => 3
    case MailAlert => 1
    case MailResolved => 2
    case Remove => 1
  }

  /** The world a goroutine leaves when it runs on alone. */
  function Finish(w: World, t: Thread): World
    decreases |t.todo|, Rank(t.pc)
  {
    if Done(t) then w else var (w', t') := Micro(w, t); Finish(w', t')
  }

  lemma RunCallsFront(w: World, calls: seq<Call>)
    requires calls != []
    ensures RunCalls(w, calls) == RunCalls(Deliver(w, calls[0]), calls[1..])
  {
    assert calls == [calls[0]] + calls[1..];
    RunCallsConcat(w, [calls[0]], calls[1..]);
    assert [calls[0]][..0] == [];
    assert RunCalls(w, [calls[0]]) == Deliver(RunCalls(w, []), calls[0]);
  }

  lemma FinishFirst(w: World, calls: seq<Call>)
    requires calls != []
    ensures Finish(w, Thread(calls, Stat)) == Finish(Deliver(w, calls[0]), Thread(calls[1..], Stat))
  {
    var Call(Event(path, verdict), f) := calls[0];
    if verdict == Faulty {
      FinishWrite(w, calls);
      FinishWrite(w.(files := w.files[path := ""]), calls);
      if path in w.files || f.stat {
        assert Finish(w, Thread(calls, Stat)) == Finish(w, Thread(calls, Read));
        if path in w.files && !f.read && w.files[path] != SENT {
          assert Finish(w, Thread(calls, Read)) == Finish(w, Thread(calls, Truncate));
        }
      } else {
        assert Finish(w, Thread(calls, Stat)) == Finish(w, Thread(calls, Write));
      }
    } else if path in w.files && !f.read && w.files[path] == SENT {
      var mailed := w.(log := w.log + [Record(path, Resolved(!f.mail))]);
      assert Finish(w, Thread(calls, Stat)) == Finish(w, Thread(calls, Read)) == Finish(w, Thread(calls, MailResolved));
      assert Finish(w, Thread(calls, MailResolved)) == Finish(mailed, Thread(calls, Remove));
    } else if path in w.files || f.stat {
      assert Finish(w, Thread(calls, Stat)) == Finish(w, Thread(calls, Read));
    }
  }

  lemma FinishWrite(w: World, calls: seq<Call>)
    requires calls != []
    ensures Finish(w, Thread(calls, Write)) ==
            Finish(Announce(w, calls[0].event.path, calls[0].faults), Thread(calls[1..], Stat))
  {
  }

  /** Alone, a goroutine does what the atomic calls do. */
  lemma {:induction false} FinishIsRunCalls(w: World, calls: seq<Call>)
    ensures Finish(w, Thread(calls, Stat)) == RunCalls(w, calls)
    decreases |calls|
  {
    if calls != [] {
      FinishFirst(w, calls);
      RunCallsFront(w, calls);
      FinishIsRunCalls(Deliver(w, calls[0]), calls[1..]);
    }
  }

  /** The entry that a step may append. */
  function MicroEntry(t: Thread): Entry
    requires !Done(t)
  {
    match t.pc
    case MailAlert => Alert(!t.todo[0].faults.mail)
    case MailResolved => Resolved(!t.todo[0].faults.mail)
    case Remove => Removed
    case _ => Unannounced
  }

  /** A step appends at most that entry, for the path of the current call. */
  lemma MicroLog(w: World, t: Thread, path: Path)
    requires !Done(t)
    ensures
      var own, log := t.todo[0].event.path, Micro(w, t).0.log;
      || log == w.log
      || (log == w.log + [Record(own, MicroEntry(t))] &&
          History(log, path) == if own == path then History(w.log, path) + [MicroEntry(t)] else History(w.log, path))
  {
    HistoryAppend(w.log, Record(t.todo[0].event.path, MicroEntry(t)), path);
  }

  /** A step changes only the path of the current call. */
  lemma MicroFrame(w: World, t: Thread, path: Path)
    requires !Done(t) && path != t.todo[0].event.path
    ensures Agree(w, Micro(w, t).0, path)
  {
    MicroLog(w, t, path);
    assert path in w.files <==> path in Micro(w, t).0.files;
  }

  /** A step reads only the path of the current call. */
  lemma MicroLocal(w: World, w': World, t: Thread, path: Path)
    requires !Done(t) && Agree(w, w', t.todo[0].event.path) && Agree(w, w', path)
    ensures Micro(w, t).1 == Micro(w', t).1
    ensures Agree(Micro(w, t).0, Micro(w', t).0, path)
  {
    if path != t.todo[0].event.path {
      MicroFrame(w, t, path);
      MicroFrame(w', t, path);
    } else {
      MicroOwn(w, w', t);
    }
  }

  lemma MicroOwn(w: World, w': World, t: Thread)
    requires !Done(t) && Agree(w, w', t.todo[0].event.path)
    ensures Agree(Micro(w, t).0, Micro(w', t).0, t.todo[0].event.path)
  {
    MicroOwnFiles(w, w', t);
    MicroOwnLog(w, w', t);
  }

  lemma MicroOwnFiles(w: World, w': World, t: Thread)
    requires !Done(t) && Agree(w, w', t.todo[0].event.path)
    ensures
      var path, files, files' := t.todo[0].event.path, Micro(w, t).0.files, Micro(w', t).0.files;
      (path in files <==> path in files') && (path in files ==> files[path] == files'[path])
  {
  }

  lemma MicroOwnLog(w: World, w': World, t: Thread)
    requires !Done(t) && Agree(w, w', t.todo[0].event.path)
    ensures
      var path := t.todo[0].event.path;
      History(Micro(w, t).0.log, path) == History(Micro(w', t).0.log, path)
  {
    var path := t.todo[0].event.path;
    var r := Record(path, MicroEntry(t));
    HistoryAppend(w.log, r, path);
    HistoryAppend(w'.log, r, path);
    assert (Micro(w, t).0.log == w.log && Micro(w', t).0.log == w'.log) ||
           (Micro(w, t).0.log == w.log + [r] && Micro(w', t).0.log == w'.log + [r]);
  }

  ghost predicate AgreeOn(w: World, w': World, calls: seq<Call>) {
    forall c :: c in calls ==> Agree(w, w', c.event.path)
  }

  lemma MicroKeepsAgreement(w: World, w': World, t: Thread)
    requires !Done(t) && AgreeOn(w, w', t.todo)
    ensures AgreeOn(Micro(w, t).0, Micro(w', t).0, Micro(w, t).1.todo)
  {
    assert t.todo[0] in t.todo;
    forall c | c in Micro(w, t).1.todo
      ensures Agree(Micro(w, t).0, Micro(w', t).0, c.event.path)
    {
      assert c in t.todo;
      MicroLocal(w, w', t, c.event.path);
    }
  }

  lemma {:induction false} FinishLocal(w: World, w': World, t: Thread, path: Path)
    requires AgreeOn(w, w', t.todo) && Agree(w, w', path)
    ensures Agree(Finish(w, t), Finish(w', t), path)
    decreases |t.todo|, Rank(t.pc)
  {
    if !Done(t) {
      assert t.todo[0] in t.todo;
      MicroLocal(w, w', t, path);
      MicroKeepsAgreement(w, w', t);
      MicroProgress(w, t);
      FinishLocal(Micro(w, t).0, Micro(w', t).0, Micro(w, t).1, path);
    }
  }

  lemma MicroProgress(w: World, t: Thread)
    requires !Done(t)
    ensures
      var t' := Micro(w, t).1;
      |t'.todo| < |t.todo| || (t'.todo == t.todo && Rank(t'.pc) < Rank(t.pc))
  {
  }

  lemma MicroEndsAtStat(w: World, t: Thread)
    requires !Done(t) && Done(Micro(w, t).1)
    ensures Micro(w, t).1.pc == Stat
  {
  }

  /** A world and the goroutines that share it. */
  datatype System = System(world: World, threads: seq<Thread>)

  function Start(w: World, programs: seq<seq<Call>>): (s: System)
    ensures |s.threads| == |programs|
  {
    System(w, seq(|programs|, i requires 0 <= i < |programs| => Thread(programs[i], Stat)))
  }

  /** The scheduler lets goroutine i take one step; choosing one that is done or does not exist changes nothing. */
  function Step(s: System, i: nat): (s': System)
    ensures |s'.threads| == |s.threads|
  {
    if i < |s.threads| && !Done(s.threads[i]) then
      var (w, t) := Micro(s.world, s.threads[i]);
      System(w, s.threads[i := t])
    else s
  }

  function Execute(s: System, schedule: seq<nat>): (s': System)
    ensures |s'.threads| == |s.threads|
  {
    if schedule == [] then s else Step(Execute(s, schedule[..|schedule| - 1]), schedule[|schedule| - 1])
  }

  predicate AllDone(s: System) {
    forall i :: 0 <= i < |s.threads| ==> Done(s.threads[i])
  }

  /** Program i has a call for this path. */
  predicate Owns(program: seq<Call>, path: Path) {
    exists c :: c in program && c.event.path == path
  }

  /** No two goroutines have calls for the same path. */
  ghost predicate Disjoint(programs: seq<seq<Call>>) {
    forall i, j, path :: 0 <= i < |programs| && 0 <= j < |programs| && Owns(programs[i], path) && Owns(programs[j], path)
      ==> i == j
  }

  /** Whatever has been scheduled so far, each goroutine is on its way to what it would have done alone. */
  ghost predicate OnTrack(w: World, programs: seq<seq<Call>>, s: System) {
    && |s.threads| == |programs|
    && (forall i :: 0 <= i < |programs| ==> forall c :: c in s.threads[i].todo ==> c in programs[i])
    && (forall i, path :: 0 <= i < |programs| && Owns(programs[i], path) ==>
          Agree(Finish(s.world, s.threads[i]), RunCalls(w, programs[i]), path))
    && (forall path :: (forall i :: 0 <= i < |programs| ==> !Owns(programs[i], path)) ==> Agree(s.world, w, path))
  }

  lemma StepStaysOnTrack(w: World, programs: seq<seq<Call>>, s: System, j: nat)
    requires Disjoint(programs) && OnTrack(w, programs, s)
    ensures OnTrack(w, programs, Step(s, j))
  {
    if j < |s.threads| && !Done(s.threads[j]) {
      var s' := Step(s, j);
      var own := s.threads[j].todo[0].event.path;
      assert Owns(programs[j], own);
      forall i, path | 0 <= i < |programs| && Owns(programs[i], path)
        ensures Agree(Finish(s'.world, s'.threads[i]), RunCalls(w, programs[i]), path)
      {
        if i != j {
          assert path != own;
          MicroFrame(s.world, s.threads[j], path);
          forall c | c in s.threads[i].todo
            ensures Agree(s.world, s'.world, c.event.path)
          {
            assert Owns(programs[i], c.event.path);
            MicroFrame(s.world, s.threads[j], c.event.path);
          }
          FinishLocal(s.world, s'.world, s.threads[i], path);
        }
      }
      forall path | forall i :: 0 <= i < |programs| ==> !Owns(programs[i], path)
        ensures Agree(s'.world, w, path)
      {
        assert !Owns(programs[j], path);
        assert Agree(s.world, w, path);
        MicroFrame(s.world, s.threads[j], path);
      }
    }
  }

  lemma {:induction false} ExecuteStaysOnTrack(w: World, programs: seq<seq<Call>>, schedule: seq<nat>)
    requires Disjoint(programs)
    ensures OnTrack(w, programs, Execute(Start(w, programs), schedule))
  {
    if schedule == [] {
      forall i | 0 <= i < |programs|
        ensures Finish(w, Start(w, programs).threads[i]) == RunCalls(w, programs[i])
      {
        FinishIsRunCalls(w, programs[i]);
      }
    } else {
      var init := schedule[..|schedule| - 1];
      ExecuteStaysOnTrack(w, programs, init);
      StepStaysOnTrack(w, programs, Execute(Start(w, programs), init), schedule[|schedule| - 1]);
    }
  }

  /** All programs one after the other. */
  function Joined(programs: seq<seq<Call>>): seq<Call> {
    if programs == [] then [] else Joined(programs[..|programs| - 1]) + programs[|programs| - 1]
  }

  lemma {:induction false} JoinedOwner(programs: seq<seq<Call>>, path: Path)
    requires forall i :: 0 <= i < |programs| ==> !Owns(programs[i], path)
    ensures !Owns(Joined(programs), path)
  {
    if programs != [] {
      var init, last := programs[..|programs| - 1], programs[|programs| - 1];
      assert forall i :: 0 <= i < |init| ==> init[i] == programs[i];
      JoinedOwner(init, path);
      assert !Owns(last, path);
      forall c | c in Joined(programs)
        ensures c.event.path != path
      {
        if c in Joined(init) {} else { assert c in last; }
      }
    }
  }

  lemma {:induction false} JoinedFaultless<A>(f: A -> seq<Event>, xs: seq<A>, programs: seq<seq<Call>>)
    requires |programs| == |xs| && forall i :: 0 <= i < |xs| ==> programs[i] == Faultless(f(xs[i]))
    ensures Joined(programs) == Faultless(FlatMap(f, xs))
  {
    if xs != [] {
      var n := |xs| - 1;
      JoinedFaultless(f, xs[..n], programs[..n]);
      FaultlessConcat(FlatMap(f, xs[..n]), f(xs[n]));
    }
  }

  /** Run one after the other, only the owner of a path matters for it. */
  lemma {:induction false} JoinedRun(w: World, programs: seq<seq<Call>>, k: nat, path: Path)
    requires Disjoint(programs) && k < |programs| && Owns(programs[k], path)
    ensures Agree(RunCalls(w, Joined(programs)), RunCalls(w, programs[k]), path)
  {
    var init, last := programs[..|programs| - 1], programs[|programs| - 1];
    var before := RunCalls(w, Joined(init));
    RunCallsConcat(w, Joined(init), last);
    assert forall i :: 0 <= i < |init| ==> init[i] == programs[i];
    if k < |init| {
      JoinedRun(w, init, k, path);
      assert !Owns(last, path);
      RunCallsFrame(before, last, path);
    } else {
      forall i | 0 <= i < |init|
        ensures !Owns(init[i], path)
      {
        assert init[i] == programs[i];
      }
      JoinedOwner(init, path);
      RunCallsFrame(w, Joined(init), path);
      RunCallsLocal(w, before, last, path);
    }
  }

  /** The same files, and for each path the same history. */
  ghost predicate SameByPath(w: World, w': World) {
    && w.files == w'.files
    && forall path :: History(w.log, path) == History(w'.log, path)
  }

  lemma SameByPathAt(w: World, w': World, path: Path)
    requires SameByPath(w, w')
    ensures Agree(w, w', path)
  {
  }

  lemma AgreeEverywhere(w: World, w': World)
    requires forall path :: Agree(w, w', path)
    ensures SameByPath(w, w')
  {
    forall path
      ensures path in w.files <==> path in w'.files
      ensures path in w.files ==> w.files[path] == w'.files[path]
      ensures History(w.log, path) == History(w'.log, path)
    {
      assert Agree(w, w', path);
    }
  }

  /** Schedule independence: goroutines with disjoint paths leave, under every complete schedule, the files and the
      per-path histories of running them one after the other. */
  lemma ScheduleIndependence(w: World, programs: seq<seq<Call>>, schedule: seq<nat>)
    requires Disjoint(programs) && AllDone(Execute(Start(w, programs), schedule))
    ensures
      SameByPath(Execute(Start(w, programs), schedule).world, RunCalls(w, Joined(programs)))
  {
    var s, joined := Execute(Start(w, programs), schedule), RunCalls(w, Joined(programs));
    ExecuteStaysOnTrack(w, programs, schedule);
    forall path
      ensures Agree(s.world, joined, path)
    {
      if k: nat :| k < |programs| && Owns(programs[k], path) {
        JoinedRun(w, programs, k, path);
        assert Finish(s.world, s.threads[k]) == s.world;
      } else {
        JoinedOwner(programs, path);
        RunCallsFrame(w, Joined(programs), path);
        assert Agree(s.world, w, path);
      }
    }
    AgreeEverywhere(s.world, joined);
  }

  /** Two goroutines that both have to alert the same absent file, both at the same step. */
  function Twins(path: Path, w: World, pc: Pc): System {
    var t := Thread([Call(Event(path, Faulty), NO_FAULTS)], pc);
    System(w, [t, t])
  }

  lemma TwinsStep(path: Path, w: World, pc: Pc)
    requires pc == Stat || pc == Write
    requires pc == Stat ==> path !in w.files
    ensures Step(Step(Twins(path, w, pc), 0), 1) ==
            if pc == Stat then Twins(path, w, Write) else Twins(path, w.(files := w.files[path := SENT]), MailAlert)
  {
    assert w.files[path := SENT][path := SENT] == w.files[path := SENT];
  }

  lemma TwinsMail(path: Path, w: World)
    ensures
      var s := Step(Step(Twins(path, w, MailAlert), 0), 1);
      var r := Record(path, Alert(true));
      AllDone(s) && s.world == w.(log := w.log + [r] + [r])
  {
  }

  /** Disjointness is needed: two goroutines that alert the same absent file at the same time both send the alert,
      while one after the other they send it once. */
  lemma SameFileRace(path: Path)
    ensures
      var call := Call(Event(path, Faulty), NO_FAULTS);
      var s := Execute(Start(EMPTY, [[call], [call]]), [0, 1, 0, 1, 0, 1]);
      && AllDone(s)
      && History(s.world.log, path) == [Alert(true), Alert(true)]
      && History(RunCalls(EMPTY, [call, call]).log, path) == [Alert(true)]
  {
    var call := Call(Event(path, Faulty), NO_FAULTS);
    var s0 := Start(EMPTY, [[call], [call]]);
    assert s0 == Twins(path, EMPTY, Stat);
    var some := World(map[path := SENT], []);
    TwinsStep(path, EMPTY, Stat);
    TwinsStep(path, EMPTY, Write);
    TwinsMail(path, some);
    assert [0, 1, 0, 1, 0, 1] == [0, 1, 0, 1] + [0, 1] && [0, 1, 0, 1] == [0, 1] + [0, 1] && [0, 1] == [] + [0, 1];
    ExecuteTwo(s0, [], 0, 1);
    ExecuteTwo(s0, [0, 1], 0, 1);
    ExecuteTwo(s0, [0, 1, 0, 1], 0, 1);
    TwoAlerts(path);
    SecondAlertSilent(path);
  }

  lemma ExecuteTwo(s: System, schedule: seq<nat>, i: nat, j: nat)
    ensures Execute(s, schedule + [i, j]) == Step(Step(Execute(s, schedule), i), j)
  {
    ExecuteStep(s, schedule, i);
    ExecuteStep(s, schedule + [i], j);
    assert schedule + [i] + [j] == schedule + [i, j];
  }

  lemma TwoAlerts(path: Path)
    ensures
      var r := Record(path, Alert(true));
      History([] + [r] + [r], path) == [Alert(true), Alert(true)]
  {
    HistoryAppend([], Record(path, Alert(true)), path);
    HistoryAppend([] + [Record(path, Alert(true))], Record(path, Alert(true)), path);
  }

  lemma SecondAlertSilent(path: Path)
    ensures
      var call := Call(Event(path, Faulty), NO_FAULTS);
      History(RunCalls(EMPTY, [call, call]).log, path) == [Alert(true)]
  {
    var call := Call(Event(path, Faulty), NO_FAULTS);
    RunCallsFront(EMPTY, [call, call]);
    assert [call, call][1..] == [call] && [call][..0] == [];
    var w := Deliver(EMPTY, call);
    assert RunCalls(w, [call]) == Deliver(RunCalls(w, []), call);
    HistoryAppend([], Record(path, Alert(true)), path);
  }

  lemma ExecuteStep(s: System, schedule: seq<nat>, i: nat)
    ensures Execute(s, schedule + [i]) == Step(Execute(s, schedule), i)
  {
    assert (schedule + [i])[..|schedule + [i]| - 1] == schedule;
  }

  /** No step of the schedule is idle. */
  ghost predicate Busy(s: System, schedule: seq<nat>) {
    schedule == [] ||
    (var init, i := schedule[..|schedule| - 1], schedule[|schedule| - 1];
     Busy(s, init) && i < |Execute(s, init).threads| && !Done(Execute(s, init).threads[i]))
  }

  lemma BusyStep(s: System, schedule: seq<nat>, i: nat)
    ensures Busy(s, schedule + [i]) <==>
            Busy(s, schedule) && i < |Execute(s, schedule).threads| && !Done(Execute(s, schedule).threads[i])
  {
    assert (schedule + [i])[..|schedule + [i]| - 1] == schedule;
  }

  function Longer(t: Thread, calls: seq<Call>): Thread {
    Thread(t.todo + calls, t.pc)
  }

  /** Later calls do not matter for the current one. */
  lemma MicroLonger(w: World, t: Thread, calls: seq<Call>)
    requires !Done(t)
    ensures !Done(Longer(t, calls))
    ensures Micro(w, Longer(t, calls)) == (Micro(w, t).0, Longer(Micro(w, t).1, calls))
  {
    assert (t.todo + calls)[0] == t.todo[0] && (t.todo + calls)[1..] == t.todo[1..] + calls;
  }

  lemma {:induction false} ExecuteLongerFrom(s: System, i: nat, calls: seq<Call>, schedule: seq<nat>)
    requires i < |s.threads| && Busy(s, schedule)
    ensures
      var s', r := System(s.world, s.threads[i := Longer(s.threads[i], calls)]), Execute(s, schedule);
      && |r.threads| == |s.threads|
      && Busy(s', schedule)
      && Execute(s', schedule) == System(r.world, r.threads[i := Longer(r.threads[i], calls)])
  {
    if schedule != [] {
      var init, k := schedule[..|schedule| - 1], schedule[|schedule| - 1];
      ExecuteLongerFrom(s, i, calls, init);
      var r := Execute(s, init);
      if k == i {
        MicroLonger(r.world, r.threads[i], calls);
      }
    }
  }

  /** Under a schedule without idle steps, calls added to the end of a program just wait. */
  lemma ExecuteLonger(w: World, programs: seq<seq<Call>>, i: nat, calls: seq<Call>, schedule: seq<nat>)
    requires i < |programs| && Busy(Start(w, programs), schedule)
    ensures
      var longer, r := Start(w, programs[i := programs[i] + calls]), Execute(Start(w, programs), schedule);
      && |r.threads| == |programs|
      && Busy(longer, schedule)
      && Execute(longer, schedule) == System(r.world, r.threads[i := Longer(r.threads[i], calls)])
  {
    var s := Start(w, programs);
    ExecuteLongerFrom(s, i, calls, schedule);
    assert Start(w, programs[i := programs[i] + calls]) == System(w, s.threads[i := Longer(s.threads[i], calls)]);
  }

  function Work(threads: seq<Thread>): nat {
    if threads == [] then 0
    else
      var last := threads[|threads| - 1];
      Work(threads[..|threads| - 1]) + 7 * |last.todo| + Rank(last.pc)
  }

  lemma {:induction false} WorkUpdate(threads: seq<Thread>, i: nat, t: Thread)
    requires i < |threads|
    ensures Work(threads[i := t]) + 7 * |threads[i].todo| + Rank(threads[i].pc) ==
            Work(threads) + 7 * |t.todo| + Rank(t.pc)
  {
    var n := |threads| - 1;
    if i < n {
      WorkUpdate(threads[..n], i, t);
      assert threads[i := t][..n] == threads[..n][i := t];
    } else {
      assert threads[i := t][..n] == threads[..n];
    }
  }

  lemma WorkDecreases(w: World, threads: seq<Thread>, i: nat)
    requires i < |threads| && !Done(threads[i])
    ensures Work(threads[i := Micro(w, threads[i]).1]) < Work(threads)
  {
    WorkUpdate(threads, i, Micro(w, threads[i]).1);
    MicroProgress(w, threads[i]);
  }

  /** One step of a goroutine on the real ledger. */
  method StepGoroutine(ledger: Ledger, t: Thread) returns (t': Thread)
    requires !Done(t)
    modifies ledger
    ensures (ledger.Now().world, t') == Micro(old(ledger.Now()).world, t)
    ensures ledger.calls == old(ledger.calls)
  {
    var Call(Event(path, verdict), f) := t.todo[0];
    t' := Advance(t);
    match t.pc {
      case Stat =>
        if path in ledger.files || f.stat {
          t' := t.(pc := Read);
        } else if verdict == Faulty {
          t' := t.(pc := Write);
        }
      case Read =>
        if path in ledger.files && !f.read {
          if verdict == Faulty {
            if ledger.files[path] != SENT {
              t' := t.(pc := Truncate);
            }
          } else if ledger.files[path] == SENT {
            t' := t.(pc := MailResolved);
          }
        }
      case Truncate =>
        if path in ledger.files && !f.truncate {
          ledger.files := ledger.files[path := ""];
          t' := t.(pc := Write);
        }
      case Write =>
        match f.write {
          case Written =>
            ledger.files := ledger.files[path := SENT];
            t' := t.(pc := MailAlert);
          case NotOpened =>
          case Interrupted(left) =>
            ledger.files := ledger.files[path := left];
            if left == SENT {
              ledger.log := ledger.log + [Record(path, Unannounced)];
            }
        }
      case MailAlert =>
        ledger.log := ledger.log + [Record(path, Alert(!f.mail))];
      case MailResolved =>
        ledger.log := ledger.log + [Record(path, Resolved(!f.mail))];
        t' := t.(pc := Remove);
      case Remove =>
        if path in ledger.files && !f.remove {
          ledger.files := ledger.files - {path};
          ledger.log := ledger.log + [Record(path, Removed)];
        }
    }
  }

  /** Some complete schedule of these goroutines takes w to w'. */
  ghost predicate Scheduled(w: World, programs: seq<seq<Call>>, w': World) {
    exists schedule ::
      AllDone(Execute(Start(w, programs), schedule)) && w' == Execute(Start(w, programs), schedule).world
  }

  /** Starts one goroutine per program and waits for all of them; the scheduler is free at every step. */
  method RunGoroutines(ledger: Ledger, programs: seq<seq<Call>>)
    modifies ledger
    ensures Scheduled(old(ledger.Now()).world, programs, ledger.Now().world)
    ensures Disjoint(programs) ==> SameByPath(ledger.Now().world, RunCalls(old(ledger.Now()).world, Joined(programs)))
    ensures ledger.calls == old(ledger.calls)
  {
    ghost var w := ledger.Now().world;
    ghost var schedule: seq<nat> := [];
    var threads := seq(|programs|, i requires 0 <= i < |programs| => Thread(programs[i], Stat));
    while exists i :: 0 <= i < |threads| && !Done(threads[i])
      invariant System(ledger.Now().world, threads) == Execute(Start(w, programs), schedule)
      invariant ledger.calls == old(ledger.calls)
      decreases Work(threads)
    {
      var i: nat :| i < |threads| && !Done(threads[i]);
      ExecuteStep(Start(w, programs), schedule, i);
      WorkDecreases(ledger.Now().world, threads, i);
      var t := StepGoroutine(ledger, threads[i]);
      threads := threads[i := t];
      schedule := schedule + [i];
    }
    if Disjoint(programs) {
      ScheduleIndependence(w, programs, schedule);
    }
  }
}
