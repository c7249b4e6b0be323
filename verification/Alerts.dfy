/** The alert ledger: one file per monitored condition, whose content decides whether an event sends a mail. */
module Alerts {
  import opened Basics

  /** The content of the file of a condition that has been alerted. */
  const SENT := "sent"

  /** AlertDir is /home/golanguser/files/ocphealth, HomeDir is /home/golanguser. */
  datatype Directory = AlertDir | HomeDir

  datatype Path = Path(dir: Directory, name: string)

  datatype Verdict = Faulty | Recovered

  datatype Event = Event(path: Path, verdict: Verdict)

  /** What an interrupted write leaves behind: a prefix of SENT, all of it when only closing the file failed. */
  type Residue = s: string | s <= SENT witness ""

  datatype WriteResult = Written | NotOpened | Interrupted(left: Residue)

  /** What goes wrong during one call. A flag that is set makes the operation it names fail. */
  datatype Faults = Faults(stat: bool, read: bool, truncate: bool, write: WriteResult, mail: bool, remove: bool)

  const NO_FAULTS := Faults(false, false, false, Written, false, false)

  /** Alert and Resolved are attempts to send a mail. Removed is a file successfully removed.
      Unannounced is a file that holds SENT although its write reported an error. */
  datatype Entry = Alert(delivered: bool) | Resolved(delivered: bool) | Removed | Unannounced

  datatype Record = Record(path: Path, entry: Entry)

  datatype World = World(files: map<Path, string>, log: seq<Record>)

  const EMPTY := World(map[], [])

  predicate Sent(w: World, path: Path) {
    path in w.files && w.files[path] == SENT
  }

  /** The entries of one path, in order. */
  function History(log: seq<Record>, path: Path): seq<Entry> {
    if log == [] then []
    else
      var last := log[|log| - 1];
      var before := History(log[..|log| - 1], path);
      if last.path == path then before + [last.entry] else before
  }

  lemma HistoryAppend(log: seq<Record>, r: Record, path: Path)
    ensures History(log + [r], path) ==
            if r.path == path then History(log, path) + [r.entry] else History(log, path)
  {
    assert (log + [r])[..|log + [r]| - 1] == log;
  }

  /** The write of SENT and, when it succeeds, the alert mail. */
  function Announce(w: World, path: Path, f: Faults): World {
    match f.write
    case Written => World(w.files[path := SENT], w.log + [Record(path, Alert(!f.mail))])
    case NotOpened => w
    case Interrupted(left) =>
      World(w.files[path := left], if left == SENT then w.log + [Record(path, Unannounced)] else w.log)
  }

  function SendAlert(w: World, path: Path, f: Faults): World {
    if path !in w.files && !f.stat then Announce(w, path, f)
    else if path !in w.files || f.read then w
    else if w.files[path] == SENT || f.truncate then w
    else Announce(w.(files := w.files[path := ""]), path, f)
  }

  function SendRecovery(w: World, path: Path, f: Faults): World {
    if path !in w.files || f.read || w.files[path] != SENT then w
    else
      var mailed := w.(log := w.log + [Record(path, Resolved(!f.mail))]);
      if f.remove then mailed else World(w.files - {path}, mailed.log + [Record(path, Removed)])
  }

  /** One event together with the faults met while it is handled. */
  datatype Call = Call(event: Event, faults: Faults)

  function Deliver(w: World, c: Call): World {
    match c.event.verdict
    case Faulty => SendAlert(w, c.event.path, c.faults)
    case Recovered => SendRecovery(w, c.event.path, c.faults)
  }

  function RunCalls(w: World, calls: seq<Call>): World {
    if calls == [] then w else Deliver(RunCalls(w, calls[..|calls| - 1]), calls[|calls| - 1])
  }

  lemma {:induction false} RunCallsConcat(w: World, a: seq<Call>, b: seq<Call>)
    ensures RunCalls(w, a + b) == RunCalls(RunCalls(w, a), b)
  {
    if b == [] {
      assert a + b == a;
    } else {
      RunCallsConcat(w, a, b[..|b| - 1]);
      assert (a + b)[..|a + b| - 1] == a + b[..|b| - 1];
    }
  }

  /** The calls of a run in which nothing fails. */
  function Faultless(events: seq<Event>): (calls: seq<Call>)
    ensures |calls| == |events|
  {
    seq(|events|, i requires 0 <= i < |events| => Call(events[i], NO_FAULTS))
  }

  function Run(w: World, events: seq<Event>): World {
    RunCalls(w, Faultless(events))
  }

  lemma RunStep(w: World, events: seq<Event>, e: Event)
    ensures Run(w, events + [e]) == Deliver(Run(w, events), Call(e, NO_FAULTS))
  {
    assert Faultless(events + [e])[..|events|] == Faultless(events);
  }

  lemma FaultlessConcat(a: seq<Event>, b: seq<Event>)
    ensures Faultless(a + b) == Faultless(a) + Faultless(b)
  {
  }

  lemma RunConcat(w: World, a: seq<Event>, b: seq<Event>)
    ensures Run(w, a + b) == Run(Run(w, a), b)
  {
    RunCallsConcat(w, Faultless(a), Faultless(b));
    FaultlessConcat(a, b);
  }

  /** Two worlds that nobody looking only at path can tell apart. */
  predicate Agree(w: World, w': World, path: Path) {
    && (path in w.files <==> path in w'.files)
    && (path in w.files ==> w.files[path] == w'.files[path])
    && History(w.log, path) == History(w'.log, path)
  }

  /** The path has been recovered: one resolved mail, and the file is removed. */
  predicate Cleared(w: World, w': World, path: Path) {
    path !in w'.files && History(w'.log, path) == History(w.log, path) + [Resolved(true), Removed]
  }

  /** The records that a call appends are all for its own path. */
  lemma AnnounceEffect(w: World, own: Path, f: Faults, path: Path)
    ensures path != own ==> Agree(w, Announce(w, own, f), path)
    ensures
      var h := History(w.log, own);
      History(Announce(w, own, f).log, own) ==
        if f.write.Written? then h + [Alert(!f.mail)]
        else if f.write == Interrupted(SENT) then h + [Unannounced]
        else h
  {
    HistoryAppend(w.log, Record(own, Alert(!f.mail)), own);
    HistoryAppend(w.log, Record(own, Alert(!f.mail)), path);
    HistoryAppend(w.log, Record(own, Unannounced), own);
    HistoryAppend(w.log, Record(own, Unannounced), path);
  }

  lemma RecoveryEffect(w: World, own: Path, f: Faults, path: Path)
    ensures path != own ==> Agree(w, SendRecovery(w, own, f), path)
    ensures
      var h := History(w.log, own);
      History(SendRecovery(w, own, f).log, own) ==
        if !Sent(w, own) || f.read then h
        else if f.remove then h + [Resolved(!f.mail)]
        else h + [Resolved(!f.mail), Removed]
  {
    if Sent(w, own) && !f.read {
      var r := Record(own, Resolved(!f.mail));
      HistoryAppend(w.log, r, own);
      HistoryAppend(w.log, r, path);
      if !f.remove {
        HistoryAppend(w.log + [r], Record(own, Removed), own);
        HistoryAppend(w.log + [r], Record(own, Removed), path);
        var h := History(w.log, own);
        assert (h + [r.entry]) + [Removed] == h + [r.entry, Removed];
      }
    }
  }

  /** Exactly what one call attempts. An alert is attempted when the file is absent and can be looked up, or holds something
      else and can be read and truncated, and the write succeeds; a resolved mail when the file holds SENT and can be
      read. Then the file is removed, whether or not the mail went out, unless the removal itself fails. */
  lemma CallAttempts(w: World, c: Call)
    ensures
      var path, f, h, w' := c.event.path, c.faults, History(w.log, c.event.path), Deliver(w, c);
      var opens := if path in w.files then w.files[path] != "sent" && !f.read && !f.truncate else !f.stat;
      var resolves := path in w.files && w.files[path] == "sent" && !f.read;
      match c.event.verdict
      case Faulty =>
        History(w'.log, path) ==
          (if opens && f.write == Written then h + [Alert(!f.mail)]
           else if opens && f.write == Interrupted("sent") then h + [Unannounced] else h)
      case Recovered =>
        && (path !in w'.files <==> path !in w.files || (resolves && !f.remove))
        && History(w'.log, path) ==
             (if !resolves then h else if f.remove then h + [Resolved(!f.mail)] else h + [Resolved(!f.mail), Removed])
  {
    var path, f := c.event.path, c.faults;
    AnnounceEffect(w, path, f, path);
    AnnounceEffect(w.(files := w.files[path := ""]), path, f, path);
    RecoveryEffect(w, path, f, path);
  }

  /** A call leaves every other path alone. */
  lemma DeliverFrame(w: World, c: Call, path: Path)
    requires path != c.event.path
    ensures Agree(w, Deliver(w, c), path)
  {
    var own := c.event.path;
    RecoveryEffect(w, own, c.faults, path);
    AnnounceEffect(w, own, c.faults, path);
    AnnounceEffect(w.(files := w.files[own := ""]), own, c.faults, path);
  }

  /** What a call does to its own path depends on that path alone. */
  lemma DeliverLocal(w: World, w': World, c: Call, path: Path)
    requires Agree(w, w', path)
    ensures Agree(Deliver(w, c), Deliver(w', c), path)
  {
    if path != c.event.path {
      DeliverFrame(w, c, path);
      DeliverFrame(w', c, path);
    } else if c.event.verdict == Faulty {
      AnnounceLocal(w, w', path, c.faults);
      AnnounceLocal(w.(files := w.files[path := ""]), w'.(files := w'.files[path := ""]), path, c.faults);
    } else {
      RecoveryEffect(w, path, c.faults, path);
      RecoveryEffect(w', path, c.faults, path);
    }
  }

  lemma AnnounceLocal(w: World, w': World, path: Path, f: Faults)
    requires Agree(w, w', path)
    ensures Agree(Announce(w, path, f), Announce(w', path, f), path)
  {
    AnnounceEffect(w, path, f, path);
    AnnounceEffect(w', path, f, path);
  }

  lemma {:induction false} RunCallsFrame(w: World, calls: seq<Call>, path: Path)
    requires forall c :: c in calls ==> c.event.path != path
    ensures Agree(w, RunCalls(w, calls), path)
  {
    if calls != [] {
      RunCallsFrame(w, calls[..|calls| - 1], path);
      DeliverFrame(RunCalls(w, calls[..|calls| - 1]), calls[|calls| - 1], path);
    }
  }

  lemma {:induction false} RunCallsLocal(w: World, w': World, calls: seq<Call>, path: Path)
    requires Agree(w, w', path)
    ensures Agree(RunCalls(w, calls), RunCalls(w', calls), path)
  {
    if calls != [] {
      var init := calls[..|calls| - 1];
      RunCallsLocal(w, w', init, path);
      DeliverLocal(RunCalls(w, init), RunCalls(w', init), calls[|calls| - 1], path);
    }
  }

  /** A run without events for a path leaves that path alone. */
  lemma RunFrame(w: World, events: seq<Event>, path: Path)
    requires forall e :: e in events ==> e.path != path
    ensures Agree(w, Run(w, events), path)
  {
    RunCallsFrame(w, Faultless(events), path);
  }

  /** The state of a ledger: its world and the number of calls made so far. */
  datatype Session = Session(world: World, calls: nat)

  /** Whether mails are enabled, and the faults that each numbered call meets. */
  datatype Env = Env(mailOn: bool, faults: nat -> Faults)

  function Next(env: Env, s: Session, e: Event): Session {
    if env.mailOn then Session(Deliver(s.world, Call(e, env.faults(s.calls))), s.calls + 1) else s
  }

  function Process(env: Env, s: Session, events: seq<Event>): Session {
    if events == [] then s else Next(env, Process(env, s, events[..|events| - 1]), events[|events| - 1])
  }

  lemma ProcessStep(env: Env, s: Session, events: seq<Event>, e: Event)
    ensures Process(env, s, events + [e]) == Next(env, Process(env, s, events), e)
  {
    assert (events + [e])[..|events + [e]| - 1] == events;
  }

  lemma {:induction false} ProcessConcat(env: Env, s: Session, a: seq<Event>, b: seq<Event>)
    ensures Process(env, s, a + b) == Process(env, Process(env, s, a), b)
  {
    if b == [] {
      assert a + b == a;
    } else {
      ProcessConcat(env, s, a, b[..|b| - 1]);
      assert (a + b)[..|a + b| - 1] == a + b[..|b| - 1];
    }
  }

  /** Applies a handler to each element in turn; f gives the events of one element. */
  function ProcessEach<A>(env: Env, s: Session, f: A -> seq<Event>, xs: seq<A>): Session {
    if xs == [] then s else Process(env, ProcessEach(env, s, f, xs[..|xs| - 1]), f(xs[|xs| - 1]))
  }

  lemma {:induction false} ProcessFlatMap<A>(env: Env, s: Session, f: A -> seq<Event>, xs: seq<A>)
    ensures Process(env, s, FlatMap(f, xs)) == ProcessEach(env, s, f, xs)
  {
    if xs != [] {
      ProcessFlatMap(env, s, f, xs[..|xs| - 1]);
      ProcessConcat(env, s, FlatMap(f, xs[..|xs| - 1]), f(xs[|xs| - 1]));
    }
  }

  ghost predicate FaultFree(env: Env) {
    env.mailOn && forall n: nat :: env.faults(n) == NO_FAULTS
  }

  lemma {:induction false} ProcessFaultFree(env: Env, s: Session, events: seq<Event>)
    requires FaultFree(env)
    ensures Process(env, s, events).world == Run(s.world, events)
  {
    if events != [] {
      var init := events[..|events| - 1];
      ProcessFaultFree(env, s, init);
      RunStep(s.world, init, events[|events| - 1]);
      assert init + [events[|events| - 1]] == events;
    }
  }

  lemma {:induction false} ProcessSuspended(env: Env, s: Session, events: seq<Event>)
    requires !env.mailOn
    ensures Process(env, s, events) == s
  {
    if events != [] {
      ProcessSuspended(env, s, events[..|events| - 1]);
    }
  }

  /** The alert files as the operator reads and writes them. */
  class Ledger {
    var files: map<Path, string>
    var calls: nat
    ghost var log: seq<Record>
    const faults: nat -> Faults

    constructor (faults: nat -> Faults)
      ensures this.faults == faults && Now() == Session(EMPTY, 0)
    {
      this.faults := faults;
      files, calls, log := map[], 0, [];
    }

    ghost function Now(): Session
      reads this
    {
      Session(World(files, log), calls)
    }

    ghost function EnvOf(suspendEmailAlert: Option<bool>): Env {
      Env(suspendEmailAlert == Some(false), faults)
    }

    method SendEmailAlert(path: Path)
      modifies this
      ensures Now() == Session(SendAlert(old(Now()).world, path, faults(old(calls))), old(calls) + 1)
    {
      var f := faults(calls);
      calls := calls + 1;
      if path !in files && !f.stat {
        WriteAndMail(path, f);
      } else {
        if path !in files || f.read {
          return;
        }
        if files[path] != SENT {
          if f.truncate {
            return;
          }
          files := files[path := ""];
          WriteAndMail(path, f);
        }
      }
    }

    method WriteAndMail(path: Path, f: Faults)
      modifies this
      ensures Now() == Session(Announce(old(Now()).world, path, f), old(calls))
    {
      match f.write {
        case Written =>
          files := files[path := SENT];
          log := log + [Record(path, Alert(!f.mail))];
        case NotOpened =>
        case Interrupted(left) =>
          files := files[path := left];
          if left == SENT {
            log := log + [Record(path, Unannounced)];
          }
      }
    }

    method SendEmailRecoveredAlert(path: Path)
      modifies this
      ensures Now() == Session(SendRecovery(old(Now()).world, path, faults(old(calls))), old(calls) + 1)
    {
      var f := faults(calls);
      calls := calls + 1;
      if path !in files && !f.stat {
        return;
      }
      if path !in files || f.read {
        return;
      }
      if files[path] == SENT {
        log := log + [Record(path, Resolved(!f.mail))];
        if !f.remove {
          files := files - {path};
          log := log + [Record(path, Removed)];
        }
      }
    }

    method SendEmail(e: Event, suspendEmailAlert: Option<bool>)
      modifies this
      ensures Now() == Next(EnvOf(suspendEmailAlert), old(Now()), e)
      ensures suspendEmailAlert.None? || suspendEmailAlert.value ==> Now() == old(Now())
      ensures suspendEmailAlert.Some? && !suspendEmailAlert.value ==>
        Now() == Session(Deliver(old(Now()).world, Call(e, faults(old(calls)))), old(calls) + 1)
    {
      if suspendEmailAlert == Some(false) {
        if e.verdict == Faulty {
          SendEmailAlert(e.path);
        } else {
          SendEmailRecoveredAlert(e.path);
        }
      }
    }

    /** The names of the files of the alert directory, in some order, each once. */
    method ReadDir() returns (names: seq<string>)
      ensures Lists(names, files)
    {
      var todo := set p | p in files && p.dir == AlertDir :: p.name;
      names := [];
      while todo != {}
        invariant forall n :: Path(AlertDir, n) in files <==> n in todo || n in names
        invariant forall n :: n in names ==> n !in todo
        invariant forall i, j :: 0 <= i < j < |names| ==> names[i] != names[j]
        decreases todo
      {
        var n :| n in todo;
        todo := todo - {n};
        names := names + [n];
      }
    }
  }

  ghost predicate Lists(names: seq<string>, files: map<Path, string>) {
    && (forall i, j :: 0 <= i < j < |names| ==> names[i] != names[j])
    && (forall n :: n in names ==> Path(AlertDir, n) in files)
    && (forall p :: p in files && p.dir == AlertDir ==> p.name in names)
  }
}
