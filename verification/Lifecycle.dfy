/** The informer lifecycle of the reconciler, as a state machine whose steps different workers interleave. */
module Lifecycle {
  import opened Basics

  /** Each informer names the factory that built it. */
  datatype Informers = Informers(
    mcp: Option<nat>, pod: Option<nat>, node: Option<nat>, policy: Option<nat>, co: Option<nat>,
    nncp: Option<nat>, catalog: Option<nat>, csv: Option<nat>, tuned: Option<nat>, trident: Option<nat>)

  function AllFrom(g: Option<nat>): Informers {
    Informers(g, g, g, g, g, g, g, g, g, g)
  }

  /** A start of a factory on a stop channel. */
  datatype Launched = Launched(factory: nat, channel: nat)

  /** The fields under the mutex, and what has happened so far: closes counts, for each channel ever made, how often it
      was closed; factories counts the factories made; firstStart is the time of the first start. */
  datatype Life = Life(
    factory: Option<nat>,
    stopChan: Option<nat>,
    informers: Informers,
    informerTimer: Option<Time>,
    podCleaner: Option<Time>,
    closes: seq<nat>,
    factories: nat,
    launches: seq<Launched>,
    firstStart: Option<Time>,
    rolls: nat,
    cleanups: nat,
    panicked: bool)

  const BOOT := Life(None, None, AllFrom(None), None, None, [], 0, [], None, 0, 0, false)

  function Panic(l: Life): Life {
    l.(panicked := true)
  }

  /** close(r.stopChan): closing a nil or a closed channel panics. */
  function CloseOld(l: Life): Life {
    if l.stopChan.Some? && l.stopChan.value < |l.closes| && l.closes[l.stopChan.value] == 0
    then l.(closes := l.closes[l.stopChan.value := 1])
    else Panic(l)
  }

  /** Nine informers, the channel and the factory become nil; the Trident informer is not cleared. */
  function ClearFields(l: Life): Life {
    l.(factory := None, stopChan := None, informers := AllFrom(None).(trident := l.informers.trident))
  }

  function MakeChannel(l: Life): Life {
    l.(stopChan := Some(|l.closes|), closes := l.closes + [0])
  }

  function MakeFactory(l: Life): Life {
    l.(factory := Some(l.factories), factories := l.factories + 1)
  }

  function BuildInformers(l: Life): Life {
    if l.factory.None? then Panic(l) else l.(informers := AllFrom(l.factory))
  }

  function SetTimers(l: Life, roll: bool, now: Time): Life {
    if roll then l.(informerTimer := Some(now), rolls := l.rolls + 1)
    else l.(informerTimer := Some(now), podCleaner := Some(now),
            firstStart := if l.firstStart.None? then Some(now) else l.firstStart)
  }

  /** go r.factory.Start(r.stopChan) */
  function Launch(l: Life): Life {
    if l.factory.None? || l.stopChan.None? then Panic(l)
    else l.(launches := l.launches + [Launched(l.factory.value, l.stopChan.value)])
  }

  function SetCleaner(l: Life, now: Time): Life {
    l.(podCleaner := Some(now), cleanups := l.cleanups + 1)
  }

  /** The clock as one pass reads it, in order: for the roll test, for the clean-up test, for the informer timer, and
      for the clean-up timer. */
  datatype Readings = Readings(past: Time, cleanup: Time, start: Time, clean: Time)

  predicate InOrder(r: Readings) {
    r.past <= r.cleanup <= r.start <= r.clean
  }

  predicate RollDue(l: Life, r: Readings) {
    l.factory.Some? && l.informerTimer.Some? && l.informerTimer.value < r.past - 3 * MINUTE
  }

  predicate CleanupDue(l: Life, r: Readings) {
    l.podCleaner.Some? && l.podCleaner.value < r.cleanup - HOUR
  }

  function Started(l: Life, roll: bool, now: Time): Life {
    Launch(SetTimers(BuildInformers(MakeFactory(MakeChannel(if roll then ClearFields(CloseOld(l)) else l))), roll, now))
  }

  /** One pass of Reconcile through the section under the mutex. */
  function Pass(l: Life, r: Readings): Life {
    if l.factory.None? then Started(l, false, r.start)
    else if !RollDue(l, r) then l
    else
      var rolled := Started(l, true, r.start);
      if rolled.podCleaner.None? then Panic(rolled)
      else if CleanupDue(rolled, r) then SetCleaner(rolled, r.clean)
      else rolled
  }

  function LifeAfter(passes: seq<Readings>): Life {
    if passes == [] then BOOT else Pass(LifeAfter(passes[..|passes| - 1]), passes[|passes| - 1])
  }

  /** Nothing has been built, or everything is there and belongs to the newest generation, whose channel is open; every
      earlier channel was closed exactly once; and every generation was started on its own channel. */
  ghost predicate OneGeneration(l: Life) {
    && !l.panicked
    && |l.closes| == |l.launches| == l.factories
    && (l.factory.None? ==> l == BOOT)
    && (l.factory.Some? ==>
         && l.factories > 0
         && l.factory == l.stopChan == Some(l.factories - 1)
         && l.informers == AllFrom(l.factory)
         && l.informerTimer.Some? && l.podCleaner.Some? && l.firstStart.Some?
         && l.closes[l.factories - 1] == 0
         && (forall g :: 0 <= g < l.factories - 1 ==> l.closes[g] == 1)
         && (forall g :: 0 <= g < l.factories ==> l.launches[g] == Launched(g, g)))
  }

  /** Rolls are more than three minutes apart and clean-ups more than an hour. */
  predicate RatesHold(l: Life) {
    l.factory.Some? && l.firstStart.Some? && l.informerTimer.Some? && l.podCleaner.Some? ==>
      && l.factories == l.rolls + 1
      && l.cleanups <= l.rolls
      && l.informerTimer.value >= l.firstStart.value + l.rolls * (3 * MINUTE)
      && (l.rolls > 0 ==> l.informerTimer.value > l.firstStart.value + l.rolls * (3 * MINUTE))
      && l.podCleaner.value >= l.firstStart.value + l.cleanups * HOUR
      && (l.cleanups > 0 ==> l.podCleaner.value > l.firstStart.value + l.cleanups * HOUR)
  }

  lemma PassKeepsGeneration(l: Life, r: Readings)
    requires OneGeneration(l)
    ensures OneGeneration(Pass(l, r))
  {
  }

  lemma PassKeepsRates(l: Life, r: Readings)
    requires OneGeneration(l) && RatesHold(l) && InOrder(r)
    ensures RatesHold(Pass(l, r))
  {
    if l.factory.Some? && RollDue(l, r) {
      var rolled := Started(l, true, r.start);
      assert rolled.rolls == l.rolls + 1 && rolled.informerTimer == Some(r.start) && rolled.podCleaner == l.podCleaner;
      assert rolled.rolls * (3 * MINUTE) == l.rolls * (3 * MINUTE) + 3 * MINUTE;
      if CleanupDue(rolled, r) {
        assert (l.cleanups + 1) * HOUR == l.cleanups * HOUR + HOUR;
      }
    }
  }

  /** What one pass does, and when: the first pass starts a generation; a later one rolls if and only if the informer timer
      is more than three minutes old, and then cleans up if and only if the clean-up timer is more than an hour old. */
  lemma PassExactly(l: Life, r: Readings)
    requires OneGeneration(l)
    ensures
      var l' := Pass(l, r);
      var rolls := l.factory.Some? && l.informerTimer.value < r.past - 180_000_000_000;
      var cleans := rolls && l.podCleaner.value < r.cleanup - 3_600_000_000_000;
      && l'.factory.Some?
      && l'.rolls == (if rolls then l.rolls + 1 else l.rolls)
      && l'.cleanups == (if cleans then l.cleanups + 1 else l.cleanups)
      && |l'.launches| == (if rolls || l.factory.None? then |l.launches| + 1 else |l.launches|)
      && l'.informerTimer == (if rolls || l.factory.None? then Some(r.start) else l.informerTimer)
      && l'.podCleaner == (if l.factory.None? then Some(r.start) else if cleans then Some(r.clean) else l.podCleaner)
      && (l.factory.None? ==> l'.firstStart == Some(r.start))
      && (l.factory.Some? && !rolls ==> l' == l)
  {
  }

  lemma {:induction false} LifeInvariants(passes: seq<Readings>)
    requires forall r :: r in passes ==> InOrder(r)
    ensures OneGeneration(LifeAfter(passes)) && RatesHold(LifeAfter(passes))
  {
    if passes != [] {
      var init, r := passes[..|passes| - 1], passes[|passes| - 1];
      assert r in passes && forall x :: x in init ==> x in passes;
      LifeInvariants(init);
      PassKeepsGeneration(LifeAfter(init), r);
      PassKeepsRates(LifeAfter(init), r);
    }
  }

  // ---------------------------------------------------------------- workers

  /** Where a worker is inside the section; the steps of a start and of a roll share their names. */
  datatype Pc =
    | ReadPast | ReadCleanup | Branch
    | Close | Clear
    | Channel(roll: bool) | Factory(roll: bool) | Build(roll: bool) | Timers(roll: bool) | Go(roll: bool)
    | TestCleaner | Cleaner
    | Leave

  datatype Local = Local(pc: Pc, r: Readings)

  /** One step of the worker that holds the mutex, at time now. */
  function Micro(l: Life, w: Local, now: Time): (Life, Local) {
    match w.pc
    case ReadPast => (l, Local(ReadCleanup, Readings(now, now, now, now)))
    case ReadCleanup => (l, Local(Branch, Readings(w.r.past, now, now, now)))
    case Branch =>
      (l, w.(pc := if l.factory.None? then Channel(false) else if RollDue(l, w.r) then Close else Leave))
    case Close => (CloseOld(l), w.(pc := Clear))
    case Clear => (ClearFields(l), w.(pc := Channel(true)))
    case Channel(roll) => (MakeChannel(l), w.(pc := Factory(roll)))
    case Factory(roll) => (MakeFactory(l), w.(pc := Build(roll)))
    case Build(roll) => (BuildInformers(l), w.(pc := Timers(roll)))
    case Timers(roll) => (SetTimers(l, roll, now), Local(Go(roll), w.r.(start := now, clean := now)))
    case Go(roll) => (Launch(l), w.(pc := if roll then TestCleaner else Leave))
    case TestCleaner =>
      if l.podCleaner.None? then (Panic(l), w.(pc := Leave))
      else (l, w.(pc := if CleanupDue(l, w.r) then Cleaner else Leave))
    case Cleaner => (SetCleaner(l, now), Local(Leave, w.r.(clean := now)))
    case Leave => (l, w)
  }

  datatype Holder = Holder(worker: nat, local: Local)

  /** The lifecycle, the mutex, the clock, and the readings of the passes completed so far. */
  datatype System = System(life: Life, mu: Option<Holder>, clock: Time, passes: seq<Readings>)

  /** A worker locks, takes a step inside the section, or unlocks; or time passes. */
  datatype Action = Lock(worker: nat) | Step(worker: nat) | Unlock(worker: nat) | Tick(delta: nat)

  function Act(s: System, a: Action): System {
    match a
    case Lock(w) => if s.mu.None? then s.(mu := Some(Holder(w, Local(ReadPast, Readings(0, 0, 0, 0))))) else s
    case Step(w) =>
      if s.mu.Some? && s.mu.value.worker == w then
        var (life, local) := Micro(s.life, s.mu.value.local, s.clock);
        s.(life := life, mu := Some(Holder(w, local)))
      else s
    case Unlock(w) =>
      if s.mu.Some? && s.mu.value.worker == w && s.mu.value.local.pc == Leave then
        s.(mu := None, passes := s.passes + [s.mu.value.local.r])
      else s
    case Tick(delta) => s.(clock := s.clock + delta)
  }

  function Reach(clock: Time, trace: seq<Action>): System {
    if trace == [] then System(BOOT, None, clock, [])
    else Act(Reach(clock, trace[..|trace| - 1]), trace[|trace| - 1])
  }

  /** The lifecycle of a worker inside the section that found l when it locked. */
  function LifeAt(l: Life, w: Local): Life {
    match w.pc
    case ReadPast => l
    case ReadCleanup => l
    case Branch => l
    case Close => l
    case Clear => CloseOld(l)
    case Channel(roll) => Before(l, roll)
    case Factory(roll) => MakeChannel(Before(l, roll))
    case Build(roll) => MakeFactory(MakeChannel(Before(l, roll)))
    case Timers(roll) => BuildInformers(MakeFactory(MakeChannel(Before(l, roll))))
    case Go(roll) => SetTimers(BuildInformers(MakeFactory(MakeChannel(Before(l, roll)))), roll, w.r.start)
    case TestCleaner => Started(l, true, w.r.start)
    case Cleaner => Started(l, true, w.r.start)
    case Leave => Pass(l, w.r)
  }

  function Before(l: Life, roll: bool): Life {
    if roll then ClearFields(CloseOld(l)) else l
  }

  /** Why a worker is at its position. */
  predicate Justified(l: Life, w: Local) {
    match w.pc
    case Close => RollDue(l, w.r)
    case Clear => RollDue(l, w.r)
    case Channel(roll) => if roll then RollDue(l, w.r) else l.factory.None?
    case Factory(roll) => if roll then RollDue(l, w.r) else l.factory.None?
    case Build(roll) => if roll then RollDue(l, w.r) else l.factory.None?
    case Timers(roll) => if roll then RollDue(l, w.r) else l.factory.None?
    case Go(roll) => if roll then RollDue(l, w.r) else l.factory.None?
    case TestCleaner => RollDue(l, w.r)
    case Cleaner => RollDue(l, w.r) && CleanupDue(Started(l, true, w.r.start), w.r)
    case _ => true
  }

  /** What holds in every reachable state. */
  ghost predicate Inv(s: System) {
    && (forall r :: r in s.passes ==> InOrder(r))
    && match s.mu
       case None => s.life == LifeAfter(s.passes)
       case Some(h) =>
         && (h.local.pc != ReadPast ==> InOrder(h.local.r) && h.local.r.clean <= s.clock)
         && Justified(LifeAfter(s.passes), h.local)
         && s.life == LifeAt(LifeAfter(s.passes), h.local)
  }

  /** A step leaves the worker at a justified position with the lifecycle that belongs to it. */
  ghost predicate Advances(l: Life, w: Local, now: Time) {
    var (life, w') := Micro(LifeAt(l, w), w, now);
    life == LifeAt(l, w') && Justified(l, w') && InOrder(w'.r) && w'.r.clean <= now
  }

  lemma StepMakes(l: Life, w: Local, now: Time)
    requires OneGeneration(l) && Justified(l, w) && InOrder(w.r) && w.r.clean <= now
    requires w.pc.Channel? || w.pc.Factory? || w.pc.Build? || w.pc.Timers?
    ensures Advances(l, w, now)
  {
    var before := Before(l, w.pc.roll);
    assert w.pc.roll ==> RollDue(l, w.r);
  }

  lemma StepGoes(l: Life, w: Local, now: Time)
    requires OneGeneration(l) && Justified(l, w) && InOrder(w.r) && w.r.clean <= now
    requires w.pc.Go?
    ensures Advances(l, w, now)
  {
    assert Launch(LifeAt(l, w)) == Started(l, w.pc.roll, w.r.start);
    if !w.pc.roll {
      assert Pass(l, w.r) == Started(l, false, w.r.start);
    }
  }

  lemma StepCleans(l: Life, w: Local, now: Time)
    requires OneGeneration(l) && Justified(l, w) && InOrder(w.r) && w.r.clean <= now
    requires w.pc.TestCleaner? || w.pc.Cleaner?
    ensures Advances(l, w, now)
  {
    var started := Started(l, true, w.r.start);
    assert started.podCleaner == l.podCleaner;
    assert Pass(l, w.r) == if CleanupDue(started, w.r) then SetCleaner(started, w.r.clean) else started;
  }

  lemma StepKeepsPosition(l: Life, w: Local, now: Time)
    requires OneGeneration(l) && Justified(l, w)
    requires w.pc != ReadPast ==> InOrder(w.r) && w.r.clean <= now
    ensures Advances(l, w, now)
  {
    match w.pc
    case Channel(_) => StepMakes(l, w, now);
    case Factory(_) => StepMakes(l, w, now);
    case Build(_) => StepMakes(l, w, now);
    case Timers(_) => StepMakes(l, w, now);
    case Go(_) => StepGoes(l, w, now);
    case TestCleaner => StepCleans(l, w, now);
    case Cleaner => StepCleans(l, w, now);
    case _ =>
  }

  lemma ActKeepsInv(s: System, a: Action)
    requires Inv(s)
    ensures Inv(Act(s, a))
  {
    if a.Step? && s.mu.Some? && s.mu.value.worker == a.worker {
      LifeInvariants(s.passes);
      StepKeepsPosition(LifeAfter(s.passes), s.mu.value.local, s.clock);
    }
  }

  lemma {:induction false} ReachKeepsInv(clock: Time, trace: seq<Action>)
    ensures Inv(Reach(clock, trace))
  {
    if trace != [] {
      ReachKeepsInv(clock, trace[..|trace| - 1]);
      ActKeepsInv(Reach(clock, trace[..|trace| - 1]), trace[|trace| - 1]);
    }
  }

  /** Serialisation: whenever the mutex is free, the lifecycle is that of the completed passes one after the other. */
  lemma PassesAreSerial(clock: Time, trace: seq<Action>)
    ensures
      var s := Reach(clock, trace);
      s.mu.None? ==> s.life == LifeAfter(s.passes)
  {
    ReachKeepsInv(clock, trace);
  }

  lemma NoPanicInside(l: Life, w: Local)
    requires OneGeneration(l) && Justified(l, w)
    ensures !LifeAt(l, w).panicked
  {
  }

  /** Single live generation: under every interleaving of workers, no channel is closed twice or while nil and no nil
      factory or timer is used; and whenever the mutex is free there is one consistent generation or none. */
  lemma SingleLiveGeneration(clock: Time, trace: seq<Action>)
    ensures
      var s := Reach(clock, trace);
      !s.life.panicked && (s.mu.None? ==> OneGeneration(s.life))
  {
    var s := Reach(clock, trace);
    ReachKeepsInv(clock, trace);
    LifeInvariants(s.passes);
    if s.mu.Some? {
      NoPanicInside(LifeAfter(s.passes), s.mu.value.local);
    }
  }

  function Sum(xs: seq<nat>): nat {
    if xs == [] then 0 else Sum(xs[..|xs| - 1]) + xs[|xs| - 1]
  }

  lemma {:induction false} SumOfOnes(xs: seq<nat>)
    requires forall i :: 0 <= i < |xs| ==> xs[i] == 1
    ensures Sum(xs) == |xs|
  {
    if xs != [] {
      SumOfOnes(xs[..|xs| - 1]);
    }
  }

  /** Generations started are one more than channels closed. */
  lemma OneMoreStartedThanClosed(l: Life)
    requires OneGeneration(l) && l.factory.Some?
    ensures |l.launches| == Sum(l.closes) + 1
  {
    SumOfOnes(l.closes[..|l.closes| - 1]);
  }

  /** Rate bounds: under every interleaving, whenever the mutex is free and something has been started, n rolls have
      taken the informer timer more than 3n minutes past the first start, and k clean-ups, at most n, have taken the
      clean-up timer more than k hours past it. */
  lemma RateBounds(clock: Time, trace: seq<Action>)
    ensures
      var l := Reach(clock, trace).life;
      Reach(clock, trace).mu.None? && l.factory.Some? ==>
        && l.firstStart.Some? && l.informerTimer.Some? && l.podCleaner.Some?
        && (l.rolls > 0 ==> l.informerTimer.value > l.firstStart.value + l.rolls * (3 * MINUTE))
        && (l.cleanups > 0 ==> l.podCleaner.value > l.firstStart.value + l.cleanups * HOUR)
        && l.cleanups <= l.rolls
  {
    ReachKeepsInv(clock, trace);
    LifeInvariants(Reach(clock, trace).passes);
  }

  /** After the passes so far, the last one has not left a roll undone, nor a clean-up when it rolled. */
  lemma LastPassUpToDate(passes: seq<Readings>)
    requires passes != [] && forall r :: r in passes ==> InOrder(r)
    ensures
      var l, before, r := LifeAfter(passes), LifeAfter(passes[..|passes| - 1]), passes[|passes| - 1];
      && l.factory.Some? && l.informerTimer.Some? && l.podCleaner.Some?
      && r.past <= l.informerTimer.value + 180_000_000_000
      && (l.rolls > before.rolls ==> r.cleanup <= l.podCleaner.value + 3_600_000_000_000)
  {
    var init, r := passes[..|passes| - 1], passes[|passes| - 1];
    assert r in passes && forall x :: x in init ==> x in passes;
    LifeInvariants(init);
    PassKeepsGeneration(LifeAfter(init), r);
    PassExactly(LifeAfter(init), r);
  }

  /** Promptness: under every interleaving, whenever the mutex is free and a pass has been completed, there is a factory, and
      at its last look the informer timer was at most three minutes old or has been renewed since; and if that pass rolled,
      the clean-up timer was at most an hour old or has been renewed. */
  lemma Promptness(clock: Time, trace: seq<Action>)
    ensures
      var s := Reach(clock, trace);
      s.mu.None? && s.passes != [] ==>
        && s.life.factory.Some? && s.life.informerTimer.Some? && s.life.podCleaner.Some?
        && s.passes[|s.passes| - 1].past <= s.life.informerTimer.value + 180_000_000_000
        && (s.life.rolls > LifeAfter(s.passes[..|s.passes| - 1]).rolls ==>
             s.passes[|s.passes| - 1].cleanup <= s.life.podCleaner.value + 3_600_000_000_000)
  {
    var s := Reach(clock, trace);
    ReachKeepsInv(clock, trace);
    if s.mu.None? && s.passes != [] {
      LastPassUpToDate(s.passes);
    }
  }
}
