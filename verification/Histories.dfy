/** What the history of one alert file looks like, whatever the calls and whatever fails. */
module Histories {
  import opened Basics
  import opened Alerts

  predicate IsAlert(e: Entry) { e.Alert? }
  predicate IsResolved(e: Entry) { e.Resolved? }
  predicate IsRemoved(e: Entry) { e.Removed? }
  predicate IsUnannounced(e: Entry) { e.Unannounced? }

  /** Replays a history: None when no ledger can produce it, otherwise whether the file now holds SENT. */
  function Armed(h: seq<Entry>): Option<bool> {
    if h == [] then Some(false)
    else
      match Armed(h[..|h| - 1])
      case None => None
      case Some(armed) => ArmedAfter(h[..|h| - 1], armed, h[|h| - 1])
  }

  function ArmedAfter(h: seq<Entry>, armed: bool, e: Entry): Option<bool> {
    match e
    case Alert(_) => if armed then None else Some(true)
    case Unannounced => if armed then None else Some(true)
    case Resolved(_) => if armed then Some(true) else None
    case Removed => if armed && h != [] && h[|h| - 1].Resolved? then Some(false) else None
  }

  lemma ArmedStep(h: seq<Entry>, e: Entry)
    ensures Armed(h + [e]) == if Armed(h).None? then None else ArmedAfter(h, Armed(h).value, e)
  {
    assert (h + [e])[..|h + [e]| - 1] == h;
  }

  /** A history to which nothing has been added, or one entry that sets the file. */
  lemma Arms(h: seq<Entry>, e: Entry, h': seq<Entry>, sent: bool)
    requires Armed(h) == Some(false) && (e.Alert? || e.Unannounced?)
    requires h' == if sent then h + [e] else h
    ensures Armed(h') == Some(sent)
  {
    if sent {
      ArmedStep(h, e);
    }
  }

  lemma ArmedPrefix(h: seq<Entry>, n: nat)
    requires n <= |h| && Armed(h).Some?
    ensures Armed(h[..n]).Some?
    decreases |h|
  {
    if n == |h| {
      assert h[..n] == h;
    } else {
      ArmedPrefix(h[..|h| - 1], n);
      assert h[..|h| - 1][..n] == h[..n];
    }
  }

  lemma AnnounceKeepsArmed(w: World, path: Path, f: Faults)
    requires Armed(History(w.log, path)) == Some(false)
    requires !Sent(w, path)
    ensures Armed(History(Announce(w, path, f).log, path)) == Some(Sent(Announce(w, path, f), path))
  {
    AnnounceEffect(w, path, f, path);
    Arms(History(w.log, path), if f.write.Written? then Alert(!f.mail) else Unannounced,
         History(Announce(w, path, f).log, path), Sent(Announce(w, path, f), path));
  }

  lemma RecoveryKeepsArmed(w: World, path: Path, f: Faults)
    requires Armed(History(w.log, path)) == Some(Sent(w, path))
    ensures Armed(History(SendRecovery(w, path, f).log, path)) == Some(Sent(SendRecovery(w, path, f), path))
  {
    var h, r := History(w.log, path), Resolved(!f.mail);
    RecoveryEffect(w, path, f, path);
    if Sent(w, path) && !f.read {
      ArmedStep(h, r);
      if !f.remove {
        ArmedStep(h + [r], Removed);
        assert (h + [r]) + [Removed] == h + [r, Removed];
      }
    }
  }

  /** One call, with any faults, keeps the history replayable and in step with the file. */
  lemma DeliverKeepsArmed(w: World, c: Call, path: Path)
    requires Armed(History(w.log, path)) == Some(Sent(w, path))
    ensures Armed(History(Deliver(w, c).log, path)) == Some(Sent(Deliver(w, c), path))
  {
    if path != c.event.path {
      DeliverFrame(w, c, path);
    } else if c.event.verdict == Faulty {
      if !Sent(w, path) {
        AnnounceKeepsArmed(w, path, c.faults);
        AnnounceKeepsArmed(w.(files := w.files[path := ""]), path, c.faults);
      }
    } else {
      RecoveryKeepsArmed(w, path, c.faults);
    }
  }

  lemma {:induction false} RunKeepsArmed(calls: seq<Call>, path: Path)
    ensures
      var w := RunCalls(EMPTY, calls);
      Armed(History(w.log, path)) == Some(Sent(w, path))
  {
    if calls != [] {
      var init := calls[..|calls| - 1];
      RunKeepsArmed(init, path);
      DeliverKeepsArmed(RunCalls(EMPTY, init), calls[|calls| - 1], path);
    }
  }

  lemma {:induction false} ArmedCounts(h: seq<Entry>)
    requires Armed(h).Some?
    ensures Count(IsAlert, h) + Count(IsUnannounced, h) == Count(IsRemoved, h) + (if Armed(h).value then 1 else 0)
  {
    if h != [] {
      ArmedCounts(h[..|h| - 1]);
    }
  }

  lemma SecondAlert(h: seq<Entry>, i: nat, j: nat)
    requires Armed(h).Some?
    requires i < j < |h| && h[i].Alert? && h[j].Alert?
    ensures i < j - 2 && h[j - 2].Resolved? && h[j - 1].Removed?
  {
    ArmedPrefix(h, j + 1);
    assert h[..j + 1][..j] == h[..j] && h[..j][..j - 1] == h[..j - 1];
    assert Armed(h[..j]) == Some(false);
    assert h[j - 1].Removed?;
    assert h[..j - 1] != [] && h[..j - 1][j - 2] == h[j - 2];
  }

  /** A second alert attempt for one path comes right after a resolved attempt and its removal, both later than
      the first alert. */
  lemma AlertsAreSeparated(calls: seq<Call>, path: Path, i: nat, j: nat)
    requires i < j < |History(RunCalls(EMPTY, calls).log, path)|
    requires History(RunCalls(EMPTY, calls).log, path)[i].Alert?
    requires History(RunCalls(EMPTY, calls).log, path)[j].Alert?
    ensures
      var h := History(RunCalls(EMPTY, calls).log, path);
      i < j - 2 && h[j - 2].Resolved? && h[j - 1].Removed?
  {
    RunKeepsArmed(calls, path);
    SecondAlert(History(RunCalls(EMPTY, calls).log, path), i, j);
  }

  /** While the file holds SENT, the entry that set it is in the history and nothing has removed it since. */
  lemma {:induction false} ArmedSince(h: seq<Entry>, j: nat) returns (i: nat)
    requires j <= |h| && Armed(h[..j]) == Some(true)
    ensures i < j && (h[i].Alert? || h[i].Unannounced?)
    ensures forall m :: i < m < j ==> !h[m].Removed?
    decreases j
  {
    assert h[..j][..j - 1] == h[..j - 1];
    if h[j - 1].Alert? || h[j - 1].Unannounced? {
      i := j - 1;
    } else {
      i := ArmedSince(h, j - 1);
    }
  }

  /** Every resolved attempt comes after an entry that set the file and that has not been removed since. */
  lemma ResolvedFollowsAlert(calls: seq<Call>, path: Path, j: nat)
    requires j < |History(RunCalls(EMPTY, calls).log, path)|
    requires History(RunCalls(EMPTY, calls).log, path)[j].Resolved?
    ensures
      var h := History(RunCalls(EMPTY, calls).log, path);
      exists i :: 0 <= i < j && (h[i].Alert? || h[i].Unannounced?) && forall m :: i < m < j ==> !h[m].Removed?
  {
    var h := History(RunCalls(EMPTY, calls).log, path);
    RunKeepsArmed(calls, path);
    ArmedPrefix(h, j);
    ArmedPrefix(h, j + 1);
    assert h[..j + 1][..j] == h[..j];
    var i := ArmedSince(h, j);
  }

  /** Conservation: what was set and not removed is exactly what still holds SENT. */
  lemma Conservation(calls: seq<Call>, path: Path)
    ensures
      var w := RunCalls(EMPTY, calls);
      var h := History(w.log, path);
      Count(IsAlert, h) + Count(IsUnannounced, h) == Count(IsRemoved, h) + (if Sent(w, path) then 1 else 0)
  {
    RunKeepsArmed(calls, path);
    ArmedCounts(History(RunCalls(EMPTY, calls).log, path));
  }

  /** The call writes all of SENT to the file, but the write reports an error. */
  predicate Swallows(w: World, c: Call, path: Path) {
    && c.event == Event(path, Faulty) && c.faults.write == Interrupted(SENT) && !Sent(w, path)
    && if path in w.files then !c.faults.read && !c.faults.truncate else !c.faults.stat
  }

  lemma AnnounceCounts(w: World, path: Path, f: Faults)
    ensures Count(IsUnannounced, History(Announce(w, path, f).log, path)) ==
            Count(IsUnannounced, History(w.log, path)) + (if f.write == Interrupted(SENT) then 1 else 0)
  {
    var h := History(w.log, path);
    AnnounceEffect(w, path, f, path);
    CountStep(h, Alert(!f.mail));
    CountStep(h, Unannounced);
  }

  lemma RecoveryCounts(w: World, path: Path, f: Faults)
    ensures Count(IsUnannounced, History(SendRecovery(w, path, f).log, path)) == Count(IsUnannounced, History(w.log, path))
  {
    var h, r := History(w.log, path), Resolved(!f.mail);
    RecoveryEffect(w, path, f, path);
    if Sent(w, path) && !f.read {
      CountStep(h, r);
      if !f.remove {
        CountStep(h + [r], Removed);
        assert (h + [r]) + [Removed] == h + [r, Removed];
      }
    }
  }

  lemma CallCounts(w: World, c: Call, path: Path)
    ensures Count(IsUnannounced, History(Deliver(w, c).log, path)) ==
            Count(IsUnannounced, History(w.log, path)) + (if Swallows(w, c, path) then 1 else 0)
  {
    if path != c.event.path {
      DeliverFrame(w, c, path);
    } else if c.event.verdict == Faulty {
      AnnounceCounts(w, path, c.faults);
      AnnounceCounts(w.(files := w.files[path := ""]), path, c.faults);
    } else {
      RecoveryCounts(w, path, c.faults);
    }
  }

  lemma CountStep(h: seq<Entry>, e: Entry)
    ensures Count(IsUnannounced, h + [e]) == Count(IsUnannounced, h) + (if e.Unannounced? then 1 else 0)
  {
    assert (h + [e])[..|h + [e]| - 1] == h;
  }

  /** Call i of the run swallows an alert. */
  predicate SwallowsAt(calls: seq<Call>, i: nat, path: Path)
    requires i < |calls|
  {
    Swallows(RunCalls(EMPTY, calls[..i]), calls[i], path)
  }

  predicate NoneSwallows(calls: seq<Call>, path: Path) {
    forall i :: 0 <= i < |calls| ==> !SwallowsAt(calls, i, path)
  }

  lemma SwallowsEarlier(calls: seq<Call>, n: nat, i: nat, path: Path)
    requires i < n <= |calls|
    ensures SwallowsAt(calls[..n], i, path) == SwallowsAt(calls, i, path)
  {
    assert calls[..n][..i] == calls[..i];
  }

  lemma NoneSwallowsStep(calls: seq<Call>, n: nat, path: Path)
    requires |calls| == n + 1
    ensures NoneSwallows(calls, path) <==> NoneSwallows(calls[..n], path) && !SwallowsAt(calls, n, path)
  {
    forall i | 0 <= i < n
      ensures SwallowsAt(calls[..n], i, path) == SwallowsAt(calls, i, path)
    {
      SwallowsEarlier(calls, n, i, path);
    }
  }

  lemma {:induction false} NothingUnannounced(calls: seq<Call>, path: Path)
    ensures Count(IsUnannounced, History(RunCalls(EMPTY, calls).log, path)) == 0 <==> NoneSwallows(calls, path)
  {
    if calls != [] {
      var init := calls[..|calls| - 1];
      NothingUnannounced(init, path);
      CallCounts(RunCalls(EMPTY, init), calls[|calls| - 1], path);
      NoneSwallowsStep(calls, |calls| - 1, path);
    }
  }

  /** Alert attempts alone balance removals exactly when no write of the run fails after its last byte. */
  lemma ConservationOfAlerts(calls: seq<Call>, path: Path)
    ensures
      var w := RunCalls(EMPTY, calls);
      var h := History(w.log, path);
      Count(IsAlert, h) == Count(IsRemoved, h) + (if Sent(w, path) then 1 else 0) <==> NoneSwallows(calls, path)
  {
    Conservation(calls, path);
    NothingUnannounced(calls, path);
  }

  /** Otherwise an alert can be lost for good: one failed close marks the file, and no later alert for it sends anything. */
  lemma {:induction false} SwallowedAlert(path: Path, calls: seq<Call>)
    requires forall c :: c in calls ==> c.event == Event(path, Faulty)
    ensures
      var first := Call(Event(path, Faulty), NO_FAULTS.(write := Interrupted(SENT)));
      var w := RunCalls(EMPTY, [first] + calls);
      Sent(w, path) && History(w.log, path) == [Unannounced]
  {
    var first := Call(Event(path, Faulty), NO_FAULTS.(write := Interrupted(SENT)));
    if calls == [] {
      FirstCall(EMPTY, first);
      assert [first] + calls == [first];
      var w := Announce(EMPTY, path, first.faults);
      assert Deliver(EMPTY, first) == w;
      AnnounceEffect(EMPTY, path, first.faults, path);
    } else {
      var init, last := calls[..|calls| - 1], calls[|calls| - 1];
      assert last in calls && forall c :: c in init ==> c in calls;
      SwallowedAlert(path, init);
      assert [first] + calls == ([first] + init) + [last];
      RunCallsStep(EMPTY, [first] + init, last);
    }
  }

  lemma RunCallsStep(w: World, calls: seq<Call>, c: Call)
    ensures RunCalls(w, calls + [c]) == Deliver(RunCalls(w, calls), c)
  {
    assert (calls + [c])[..|calls + [c]| - 1] == calls;
  }

  lemma FirstCall(w: World, c: Call)
    ensures RunCalls(w, [c]) == Deliver(w, c)
  {
    assert [c][..0] == [];
    assert RunCalls(w, [c][..0]) == w;
  }

  /** The verdicts of one path, in order. */
  function Verdicts(events: seq<Event>, path: Path): seq<Verdict> {
    if events == [] then []
    else
      var last := events[|events| - 1];
      var before := Verdicts(events[..|events| - 1], path);
      if last.path == path then before + [last.verdict] else before
  }

  lemma VerdictsStep(events: seq<Event>, e: Event, path: Path)
    ensures Verdicts(events + [e], path) ==
            if e.path == path then Verdicts(events, path) + [e.verdict] else Verdicts(events, path)
  {
    assert (events + [e])[..|events + [e]| - 1] == events;
  }

  /** The verdict in force: the last one, or Recovered when there is none. */
  function Current(vs: seq<Verdict>): Verdict {
    if vs == [] then Recovered else vs[|vs| - 1]
  }

  /** The verdicts that differ from the one in force before them. */
  function Changes(vs: seq<Verdict>): seq<Verdict> {
    if vs == [] then []
    else
      var init, last := vs[..|vs| - 1], vs[|vs| - 1];
      if last != Current(init) then Changes(init) + [last] else Changes(init)
  }

  lemma ChangesStep(vs: seq<Verdict>, v: Verdict)
    ensures Changes(vs + [v]) == if v != Current(vs) then Changes(vs) + [v] else Changes(vs)
  {
    assert (vs + [v])[..|vs + [v]| - 1] == vs;
  }

  /** Alert, resolved, alert, and so on. */
  predicate Alternating(mails: seq<Verdict>) {
    forall i :: 0 <= i < |mails| ==> (mails[i] == Faulty <==> i % 2 == 0)
  }

  lemma {:induction false} ChangesAlternate(vs: seq<Verdict>)
    ensures Alternating(Changes(vs))
    ensures |Changes(vs)| % 2 == 1 <==> Current(vs) == Faulty
  {
    if vs != [] {
      ChangesAlternate(vs[..|vs| - 1]);
    }
  }

  /** The mails of a history: an alert reports Faulty, a resolved mail reports Recovered. */
  function Mails(h: seq<Entry>): seq<Verdict> {
    if h == [] then []
    else
      var last := h[|h| - 1];
      var before := Mails(h[..|h| - 1]);
      if last.Alert? then before + [Faulty] else if last.Resolved? then before + [Recovered] else before
  }

  lemma MailsStep(h: seq<Entry>, e: Entry)
    ensures Mails(h + [e]) ==
            if e.Alert? then Mails(h) + [Faulty] else if e.Resolved? then Mails(h) + [Recovered] else Mails(h)
  {
    assert (h + [e])[..|h + [e]| - 1] == h;
  }

  /** A path that a run has not touched yet. */
  predicate Untouched(w: World, path: Path) {
    path !in w.files && History(w.log, path) == []
  }

  /** One fault-free event on a path that is absent or holds SENT. */
  lemma FaultlessStep(w: World, e: Event)
    requires e.path in w.files ==> Sent(w, e.path)
    ensures
      var w' := Deliver(w, Call(e, NO_FAULTS));
      && (e.path in w'.files <==> e.verdict == Faulty)
      && (e.path in w'.files ==> Sent(w', e.path))
      && History(w'.log, e.path) ==
         (if (e.verdict == Faulty) == Sent(w, e.path) then History(w.log, e.path)
          else if e.verdict == Faulty then History(w.log, e.path) + [Alert(true)]
          else History(w.log, e.path) + [Resolved(true), Removed])
  {
    AnnounceEffect(w, e.path, NO_FAULTS, e.path);
    RecoveryEffect(w, e.path, NO_FAULTS, e.path);
  }

  /** The ledger is an edge detector: after a fault-free run a path is present exactly when its last verdict is
      Faulty, and its mails are exactly the changes of verdict. */
  lemma {:induction false} EdgeDetector(w: World, events: seq<Event>, path: Path)
    requires Untouched(w, path)
    ensures
      var w', vs := Run(w, events), Verdicts(events, path);
      && (path in w'.files <==> Current(vs) == Faulty)
      && (path in w'.files ==> Sent(w', path))
      && Mails(History(w'.log, path)) == Changes(vs)
  {
    if events == [] {
      assert Run(w, []) == w;
    } else {
      var init, e := events[..|events| - 1], events[|events| - 1];
      assert init + [e] == events;
      EdgeDetector(w, init, path);
      RunStep(w, init, e);
      VerdictsStep(init, e, path);
      var w1 := Run(w, init);
      if e.path != path {
        DeliverFrame(w1, Call(e, NO_FAULTS), path);
        assert Verdicts(events, path) == Verdicts(init, path);
      } else {
        FaultlessStep(w1, e);
        ChangesStep(Verdicts(init, path), e.verdict);
        var h := History(w1.log, path);
        MailsStep(h, Alert(true));
        MailsStep(h, Resolved(true));
        MailsStep(h + [Resolved(true)], Removed);
        assert (h + [Resolved(true)]) + [Removed] == h + [Resolved(true), Removed];
      }
    }
  }

  /** The mails of a path strictly alternate, starting with an alert. */
  lemma MailsAlternate(w: World, events: seq<Event>, path: Path)
    requires Untouched(w, path)
    ensures
      Alternating(Mails(History(Run(w, events).log, path)))
  {
    EdgeDetector(w, events, path);
    ChangesAlternate(Verdicts(events, path));
  }

  lemma {:induction false} NoEventNoVerdict(events: seq<Event>, path: Path)
    ensures Verdicts(events, path) != [] <==> exists e :: e in events && e.path == path
  {
    if events != [] {
      var init := events[..|events| - 1];
      NoEventNoVerdict(init, path);
      assert events == init + [events[|events| - 1]];
    }
  }

  /** After a fault-free run from nothing, the files are exactly the paths whose last verdict is Faulty. */
  lemma LedgerHoldsLastVerdicts(events: seq<Event>)
    ensures Run(EMPTY, events).files ==
            map e | e in events && Current(Verdicts(events, e.path)) == Faulty :: e.path := SENT
  {
    var w := Run(EMPTY, events);
    var expected := map e | e in events && Current(Verdicts(events, e.path)) == Faulty :: e.path := SENT;
    forall path
      ensures path in w.files <==> path in expected
      ensures path in w.files ==> w.files[path] == SENT
    {
      EdgeDetector(EMPTY, events, path);
      NoEventNoVerdict(events, path);
    }
  }

  lemma {:induction false} MailsBalance(h: seq<Entry>)
    requires Alternating(Mails(h))
    ensures Count(IsAlert, h) == Count(IsResolved, h) + |Mails(h)| % 2
  {
    if h != [] {
      var before := Mails(h[..|h| - 1]);
      assert forall i :: 0 <= i < |before| ==> before[i] == Mails(h)[i];
      MailsBalance(h[..|h| - 1]);
      if |Mails(h)| > |before| {
        assert Mails(h)[|before|] == Faulty <==> |before| % 2 == 0;
      }
    }
  }

  /** The events of one path, in order. */
  function EventsFor(events: seq<Event>, path: Path): seq<Event> {
    if events == [] then []
    else
      var last := events[|events| - 1];
      var before := EventsFor(events[..|events| - 1], path);
      if last.path == path then before + [last] else before
  }

  /** What a run does to a path, its events for that path do alone. */
  lemma {:induction false} RunProjects(w: World, events: seq<Event>, path: Path)
    ensures Agree(Run(w, events), Run(w, EventsFor(events, path)), path)
  {
    if events == [] {
      assert Run(w, []) == w;
    } else {
      var init, e := events[..|events| - 1], events[|events| - 1];
      RunProjects(w, init, path);
      assert events == init + [e];
      RunStep(w, init, e);
      RunStep(w, EventsFor(init, path), e);
      if e.path == path {
        DeliverLocal(Run(w, init), Run(w, EventsFor(init, path)), Call(e, NO_FAULTS), path);
      } else {
        DeliverFrame(Run(w, init), Call(e, NO_FAULTS), path);
        assert EventsFor(events, path) == EventsFor(init, path);
      }
    }
  }

  lemma {:induction false} EventsForConcat(a: seq<Event>, b: seq<Event>, path: Path)
    ensures EventsFor(a + b, path) == EventsFor(a, path) + EventsFor(b, path)
  {
    if b == [] {
      assert a + b == a;
    } else {
      EventsForConcat(a, b[..|b| - 1], path);
      assert (a + b)[..|a + b| - 1] == a + b[..|b| - 1];
    }
  }

  lemma {:induction false} EventsForAll(events: seq<Event>, path: Path)
    ensures (forall e :: e in events ==> e.path == path) ==> EventsFor(events, path) == events
    ensures (forall e :: e in events ==> e.path != path) ==> EventsFor(events, path) == []
  {
    if events != [] {
      var init := events[..|events| - 1];
      EventsForAll(init, path);
      assert forall e :: e in init ==> e in events;
      if forall e :: e in events ==> e.path == path {
        assert events == init + [events[|events| - 1]];
      }
    }
  }

  /** The value Reconcile computes for Healthy. */
  ghost predicate HealthyListing(w: World) {
    forall path :: path in w.files ==> path.dir != AlertDir
  }

  /** Every condition of the alert directory has had as many resolved mails as alerts. */
  ghost predicate MailBalance(w: World) {
    forall path: Path :: path.dir == AlertDir ==>
      Count(IsAlert, History(w.log, path)) == Count(IsResolved, History(w.log, path))
  }

  /** From an untouched alert directory, Healthy holds exactly when every condition of that directory has had as many
      resolved mails as alerts. */
  lemma HealthAgreesWithMail(w: World, events: seq<Event>)
    requires forall path: Path :: path.dir == AlertDir ==> Untouched(w, path)
    ensures
      var w' := Run(w, events);
      HealthyListing(w') <==> MailBalance(w')
  {
    var w' := Run(w, events);
    forall path: Path | path.dir == AlertDir
      ensures path in w'.files <==>
              Count(IsAlert, History(w'.log, path)) != Count(IsResolved, History(w'.log, path))
    {
      EdgeDetector(w, events, path);
      ChangesAlternate(Verdicts(events, path));
      MailsBalance(History(w'.log, path));
    }
  }
}
