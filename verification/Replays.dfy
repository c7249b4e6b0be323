/** What a handler that is called again and again for an unchanged object mails. */
module Replays {
  import opened Alerts
  import opened Histories
  import opened Pods

  /** The same events k times. */
  function Repeat(events: seq<Event>, k: nat): seq<Event> {
    if k == 0 then [] else Repeat(events, k - 1) + events
  }

  lemma {:induction false} EventsForMembers(events: seq<Event>, path: Path)
    ensures forall e :: e in EventsFor(events, path) <==> e in events && e.path == path
  {
    if events != [] {
      var init, last := events[..|events| - 1], events[|events| - 1];
      EventsForMembers(init, path);
      assert forall e :: e in events <==> e in init || e == last;
    }
  }

  /** All events for the path carry this verdict. */
  ghost predicate Steady(events: seq<Event>, path: Path, v: Verdict) {
    forall e :: e in events && e.path == path ==> e.verdict == v
  }

  lemma {:induction false} RepeatMembers(events: seq<Event>, k: nat)
    ensures forall e :: e in Repeat(events, k) ==> e in events
  {
    if k > 0 {
      RepeatMembers(events, k - 1);
    }
  }

  /** At most one mail for the path, however often the events are sent, from any world. */
  ghost predicate Quiet(events: seq<Event>, path: Path) {
    forall w, k :: MailCount(Run(w, Repeat(events, k)), path) <= MailCount(w, path) + 1
  }

  lemma SteadyMails(w: World, events: seq<Event>, path: Path, v: Verdict)
    requires Steady(events, path, v)
    ensures MailCount(Run(w, events), path) <= MailCount(w, path) + 1
  {
    EventsForMembers(events, path);
    RunProjects(w, events, path);
    UniformMails(w, EventsFor(events, path), path, v);
  }

  lemma SteadyIsQuiet(events: seq<Event>, path: Path, v: Verdict)
    requires Steady(events, path, v)
    ensures Quiet(events, path)
  {
    forall w, k: nat
      ensures MailCount(Run(w, Repeat(events, k)), path) <= MailCount(w, path) + 1
    {
      RepeatMembers(events, k);
      SteadyMails(w, Repeat(events, k), path, v);
    }
  }

  lemma {:induction false} VerdictsConcat(a: seq<Event>, b: seq<Event>, path: Path)
    ensures Verdicts(a + b, path) == Verdicts(a, path) + Verdicts(b, path)
  {
    if b == [] {
      assert a + b == a;
    } else {
      var init := b[..|b| - 1];
      VerdictsConcat(a, init, path);
      assert a + b == (a + init) + [b[|b| - 1]] && b == init + [b[|b| - 1]];
      VerdictsStep(a + init, b[|b| - 1], path);
      VerdictsStep(init, b[|b| - 1], path);
    }
  }

  lemma {:induction false} VerdictsMembers(events: seq<Event>, path: Path, v: Verdict)
    ensures v in Verdicts(events, path) <==> Event(path, v) in events
  {
    if events != [] {
      var init, last := events[..|events| - 1], events[|events| - 1];
      assert events == init + [last];
      VerdictsMembers(init, path, v);
      VerdictsStep(init, last, path);
    }
  }

  lemma {:induction false} ChangesGrow(vs: seq<Verdict>, n: nat)
    requires n <= |vs|
    ensures |Changes(vs[..n])| <= |Changes(vs)|
    decreases |vs|
  {
    if n < |vs| {
      ChangesGrow(vs[..|vs| - 1], n);
      assert vs[..|vs| - 1][..n] == vs[..n];
    } else {
      assert vs[..n] == vs;
    }
  }

  /** A recovery somewhere after a fault makes two changes. */
  lemma UpAndDownChanges(vs: seq<Verdict>, i: nat, j: nat)
    requires i < j < |vs| && vs[i] == Faulty && vs[j] == Recovered
    ensures |Changes(vs)| >= 2
  {
    var up, down := vs[..i + 1], vs[..j + 1];
    ChangesAlternate(up);
    ChangesAlternate(down);
    assert down[..i + 1] == up;
    ChangesGrow(down, i + 1);
    ChangesGrow(vs, j + 1);
  }

  /** Events with both verdicts for the path mail at least twice when they are sent twice. */
  lemma MixedIsLoud(events: seq<Event>, path: Path)
    requires Event(path, Faulty) in events && Event(path, Recovered) in events
    ensures !Quiet(events, path)
  {
    VerdictsMembers(events, path, Faulty);
    VerdictsMembers(events, path, Recovered);
    VerdictsConcat(events, events, path);
    TwiceChanges(Verdicts(events, path));
    EdgeDetector(EMPTY, events + events, path);
    RepeatTwice(events);
    assert MailCount(EMPTY, path) == 0;
    assert MailCount(Run(EMPTY, Repeat(events, 2)), path) >= 2;
  }

  lemma TwiceChanges(vs: seq<Verdict>)
    requires Faulty in vs && Recovered in vs
    ensures |Changes(vs + vs)| >= 2
  {
    var i :| 0 <= i < |vs| && vs[i] == Faulty;
    var j :| 0 <= j < |vs| && vs[j] == Recovered;
    assert (vs + vs)[i] == Faulty && (vs + vs)[|vs| + j] == Recovered;
    UpAndDownChanges(vs + vs, i, |vs| + j);
  }

  lemma RepeatTwice(events: seq<Event>)
    ensures Repeat(events, 1) == events && Repeat(events, 2) == events + events
  {
    assert Repeat(events, 1) == [] + events;
  }

  /** Exactly when repeated events stay quiet: if and only if they do not have both verdicts for the path. */
  lemma QuietExactly(events: seq<Event>, path: Path)
    ensures Quiet(events, path) <==> !(Event(path, Faulty) in events && Event(path, Recovered) in events)
  {
    if Event(path, Faulty) in events && Event(path, Recovered) in events {
      MixedIsLoud(events, path);
    } else {
      var v := if Event(path, Faulty) in events then Faulty else Recovered;
      forall e | e in events && e.path == path
        ensures e.verdict == v
      {
        assert e == Event(path, e.verdict);
      }
      SteadyIsQuiet(events, path, v);
    }
  }

  /** Each event sends at most one mail. */
  lemma {:induction false} OneMailEach(w: World, events: seq<Event>, path: Path)
    ensures MailCount(Run(w, events), path) <= MailCount(w, path) + |EventsFor(events, path)|
  {
    if events == [] {
      assert Run(w, []) == w;
    } else {
      var init, e := events[..|events| - 1], events[|events| - 1];
      assert events == init + [e];
      OneMailEach(w, init, path);
      RunStep(w, init, e);
      if e.path == path {
        OneEvent(Run(w, init), e);
        MailsOfSwing(History(Run(w, init).log, path), e.verdict);
      } else {
        DeliverFrame(Run(w, init), Call(e, NO_FAULTS), path);
      }
    }
  }
}
