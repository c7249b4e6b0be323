/** A goroutine among others, seen from the files that only it touches. */
module Solo {
  import opened Alerts
  import opened Goroutines

  /** n steps of a goroutine that runs alone. */
  function Alone(w: World, t: Thread, n: nat): (World, Thread) {
    if n == 0 then (w, t)
    else
      var (w', t') := Alone(w, t, n - 1);
      if Done(t') then (w', t') else Micro(w', t')
  }

  lemma {:induction false} AloneFinish(w: World, t: Thread, n: nat)
    ensures Finish(Alone(w, t, n).0, Alone(w, t, n).1) == Finish(w, t)
  {
    if n > 0 {
      AloneFinish(w, t, n - 1);
    }
  }

  /** Steps that a goroutine can still take are fewer than this. */
  function Left(t: Thread): nat {
    7 * |t.todo| + Rank(t.pc)
  }

  /** Further calls do not matter until the first ones are made. */
  lemma {:induction false} AloneLonger(w: World, t: Thread, rest: seq<Call>, n: nat)
    requires Done(t) ==> t.pc == Stat
    ensures
      var a, b := Alone(w, t, n), Alone(w, Longer(t, rest), n);
      && (Done(a.1) ==> a.1.pc == Stat)
      && (b == (a.0, Longer(a.1, rest)) || Left(b.1) < Left(Thread(rest, Stat)))
  {
    if n > 0 {
      AloneLonger(w, t, rest, n - 1);
      var a, b := Alone(w, t, n - 1), Alone(w, Longer(t, rest), n - 1);
      if !Done(b.1) {
        MicroProgress(b.0, b.1);
      }
      if !Done(a.1) {
        MicroLonger(a.0, a.1, rest);
        if Done(Micro(a.0, a.1).1) {
          MicroEndsAtStat(a.0, a.1);
        }
      } else {
        assert [] + rest == rest;
      }
    }
  }

  /** A goroutine alone that is between two calls has made the calls behind it. */
  lemma AloneBetween(w: World, calls: seq<Call>, n: nat, c: nat)
    requires c <= |calls|
    requires
      var t := Alone(w, Thread(calls, Stat), n).1;
      t.pc == Stat && c + |t.todo| == |calls|
    ensures Alone(w, Thread(calls, Stat), n).0 == RunCalls(w, calls[..c])
  {
    var t := Thread(calls[..c], Stat);
    assert Longer(t, calls[c..]) == Thread(calls, Stat);
    AloneLonger(w, t, calls[c..], n);
    AloneFinish(w, t, n);
    FinishIsRunCalls(w, calls[..c]);
  }

  /** Nobody but goroutine i has calls for the path. */
  ghost predicate Private(programs: seq<seq<Call>>, i: nat, path: Path) {
    forall j :: 0 <= j < |programs| && j != i ==> !Owns(programs[j], path)
  }

  /** Where goroutine i is, and what it has done to its private files, is what n steps alone do. */
  ghost predicate Keeps(w: World, programs: seq<seq<Call>>, s: System, i: nat, n: nat)
    requires i < |programs|
  {
    var (w', t) := Alone(w, Thread(programs[i], Stat), n);
    && |s.threads| == |programs| && s.threads[i] == t
    && (forall j :: 0 <= j < |programs| ==> forall c :: c in s.threads[j].todo ==> c in programs[j])
    && (forall path :: Private(programs, i, path) ==> Agree(s.world, w', path))
  }

  lemma OwnIsPrivate(programs: seq<seq<Call>>, i: nat, path: Path)
    requires i < |programs| && Disjoint(programs) && Owns(programs[i], path)
    ensures Private(programs, i, path)
  {
  }

  lemma OwnStepKeeps(w: World, programs: seq<seq<Call>>, s: System, i: nat, n: nat)
    requires i < |programs| && Disjoint(programs) && Keeps(w, programs, s, i, n) && !Done(s.threads[i])
    ensures Keeps(w, programs, Step(s, i), i, n + 1)
  {
    var t := s.threads[i];
    var own, w' := t.todo[0].event.path, Alone(w, Thread(programs[i], Stat), n).0;
    assert t.todo[0] in t.todo;
    assert Owns(programs[i], own);
    OwnIsPrivate(programs, i, own);
    MicroLocal(s.world, w', t, own);
    forall path | Private(programs, i, path)
      ensures Agree(Micro(s.world, t).0, Micro(w', t).0, path)
    {
      MicroLocal(s.world, w', t, path);
    }
  }

  lemma OtherStepKeeps(w: World, programs: seq<seq<Call>>, s: System, i: nat, n: nat, k: nat)
    requires i < |programs| && Keeps(w, programs, s, i, n) && k < |programs| && k != i && !Done(s.threads[k])
    ensures Keeps(w, programs, Step(s, k), i, n)
  {
    var t := s.threads[k];
    assert t.todo[0] in t.todo;
    assert Owns(programs[k], t.todo[0].event.path);
    forall path | Private(programs, i, path)
      ensures Agree(s.world, Step(s, k).world, path)
    {
      MicroFrame(s.world, t, path);
    }
  }

  lemma {:induction false} ExecuteKeeps(w: World, programs: seq<seq<Call>>, i: nat, schedule: seq<nat>) returns (n: nat)
    requires i < |programs| && Disjoint(programs)
    ensures Keeps(w, programs, Execute(Start(w, programs), schedule), i, n)
  {
    if schedule == [] {
      n := 0;
    } else {
      var init := schedule[..|schedule| - 1];
      var before := ExecuteKeeps(w, programs, i, init);
      var s, k := Execute(Start(w, programs), init), schedule[|schedule| - 1];
      n := before;
      if k < |programs| && !Done(s.threads[k]) {
        if k == i {
          OwnStepKeeps(w, programs, s, i, before);
          n := before + 1;
        } else {
          OtherStepKeeps(w, programs, s, i, before, k);
        }
      }
    }
  }

  /** A goroutine that has made c calls and is between two calls leaves its private files as those calls alone do, however
      far the others are. */
  lemma PrivateBetween(w: World, programs: seq<seq<Call>>, i: nat, schedule: seq<nat>, c: nat, path: Path)
    requires i < |programs| && Disjoint(programs) && Private(programs, i, path) && c <= |programs[i]|
    requires
      var t := Execute(Start(w, programs), schedule).threads[i];
      t.pc == Stat && c + |t.todo| == |programs[i]|
    ensures Agree(Execute(Start(w, programs), schedule).world, RunCalls(w, programs[i][..c]), path)
  {
    var n := ExecuteKeeps(w, programs, i, schedule);
    AloneBetween(w, programs[i], n, c);
  }

  /** A write is on its way only for an alert. */
  ghost predicate WritesAlert(s: System, programs: seq<seq<Call>>) {
    && |s.threads| == |programs|
    && forall i :: 0 <= i < |programs| ==>
         && (forall c :: c in s.threads[i].todo ==> c in programs[i])
         && (!Done(s.threads[i]) && s.threads[i].pc in {Truncate, Write, MailAlert} ==>
              s.threads[i].todo[0].event.verdict == Faulty)
  }

  /** Some goroutine alerts the file. */
  predicate Alerted(programs: seq<seq<Call>>, path: Path) {
    exists i, c :: 0 <= i < |programs| && c in programs[i] && c.event == Event(path, Faulty)
  }

  /** Files that were not there at the start have been alerted. */
  lemma {:induction false} FilesComeFromAlerts(w: World, programs: seq<seq<Call>>, schedule: seq<nat>, path: Path)
    ensures WritesAlert(Execute(Start(w, programs), schedule), programs)
    ensures path in Execute(Start(w, programs), schedule).world.files ==> path in w.files || Alerted(programs, path)
  {
    if schedule != [] {
      var init, k := schedule[..|schedule| - 1], schedule[|schedule| - 1];
      var s := Execute(Start(w, programs), init);
      FilesComeFromAlerts(w, programs, init, path);
      if k < |programs| && !Done(s.threads[k]) {
        assert s.threads[k].todo[0] in s.threads[k].todo;
      }
    }
  }

  /** A file that nobody has calls for stays, whatever the others race for. */
  lemma {:induction false} ExecuteFrame(w: World, programs: seq<seq<Call>>, schedule: seq<nat>, path: Path)
    requires forall i :: 0 <= i < |programs| ==> !Owns(programs[i], path)
    ensures WritesAlert(Execute(Start(w, programs), schedule), programs)
    ensures Agree(Execute(Start(w, programs), schedule).world, w, path)
  {
    if schedule != [] {
      var init, k := schedule[..|schedule| - 1], schedule[|schedule| - 1];
      var s := Execute(Start(w, programs), init);
      ExecuteFrame(w, programs, init, path);
      FilesComeFromAlerts(w, programs, schedule, path);
      if k < |programs| && !Done(s.threads[k]) {
        assert s.threads[k].todo[0] in s.threads[k].todo;
        MicroFrame(s.world, s.threads[k], path);
      }
    }
  }
}
