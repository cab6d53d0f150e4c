/** The error route of main: lines 220-222 can end the search with directories still queued. The runs here
    put all threads but one to sleep, and let that one fail. */
module PfindErrorRoute {
  import opened Basics
  import opened FileTree
  import opened Pfind

  ghost predicate Reachable(c: Config, s: State) {
    exists schedule :: Run(c, schedule) == Some(s)
  }

  /** One more step of a run. */
  lemma Onward(c: Config, s: State, e: Event) returns (s': State)
    requires Reachable(c, s) && Next(c, s, e).Some?
    ensures Next(c, s, e) == Some(s') && Reachable(c, s')
  {
    hide Next;
    var schedule :| Run(c, schedule) == Some(s);
    assert (schedule + [e])[..|schedule|] == schedule;
    s' := Next(c, s, e).value;
    assert Run(c, schedule + [e]) == Some(s');
  }

  /** The same for a step of a worker, and for one of main after the workers have been created. */
  lemma Goes(c: Config, s: State, t: nat, a: Answer) returns (s': State)
    requires Reachable(c, s) && t < |s.workers| && WorkerNext(c, s.workers[t], s.g, t, a).Moved?
    ensures var o := WorkerNext(c, s.workers[t], s.g, t, a);
      Reachable(c, s') && s' == State(s.workers[t := o.w], s.main, o.g)
  {
    hide WorkerNext, Reachable;
    s' := Onward(c, s, WorkerStep(t, a));
  }

  lemma MainGoes(c: Config, s: State) returns (s': State)
    requires Reachable(c, s) && !s.main.pc.Create? && MainNext(c, s.main, s.g).MainMoved?
    ensures var o := MainNext(c, s.main, s.g);
      Reachable(c, s') && s' == State(s.workers, o.m, o.g)
  {
    hide MainNext, Reachable;
    s' := Onward(c, s, MainStep);
  }

  /** The globals of these runs between two critical sections. */
  function Shared(queue: seq<Job>, sleeping: int, living: int, errors: int, visited: seq<Path>): Globals {
    Globals(map[], queue, true, false, sleeping, living, errors, 0, false, [], visited)
  }

  /** Main has given no verdict. */
  predicate Undecided(m: Main) {
    m.errored == 0 && !m.allFinished && !m.allErrors && !m.allAsleep
  }

  /** Only worker `t` has moved between the two states. */
  predicate OnlyWorker(s0: State, s: State, t: nat) {
    t < |s0.workers| == |s.workers| && s.workers == s0.workers[t := s.workers[t]] && s.main == s0.main
  }

  lemma LockRoundTrip(l: Lock, o: Owner)
    ensures map[][l := o] - {l} == map[]
  {
  }

  // ---- Main starts the search ----

  /** Main before the test of its creation loop, with `n` workers created. */
  predicate HasCreated(c: Config, s: State, n: nat) {
    && |s.workers| == c.Workers()
    && (forall t :: 0 <= t < |s.workers| ==>
          s.workers[t] == Worker(if t < n then StartLock else Unborn, None, [], false, [], [], 0))
    && s.main.pc.CreateTest? && s.main.created == n && Undecided(s.main)
    && s.g == Globals(map[], [c.root], false, false, 0, n, 0, 0, false, [], [])
  }

  lemma FirstStep(c: Config) returns (s: State)
    ensures Reachable(c, s) && HasCreated(c, s, 0)
  {
    assert Run(c, []) == Some(Init(c));
    s := Onward(c, Init(c), MainStep);
  }

  lemma CreateOne(c: Config, s0: State, n: nat) returns (s: State)
    requires Reachable(c, s0) && HasCreated(c, s0, n) && n < c.Workers()
    ensures Reachable(c, s) && HasCreated(c, s, n + 1)
  {
    hide OpenNext, CompareNext, DecideNext, EndNext, Reachable;
    s := Onward(c, s0, MainStep);
    s := Onward(c, s, MainStep);
    s := Onward(c, s, MainStep);
    s := Onward(c, s, MainStep);
    s := Onward(c, s, MainStep);
    s := Onward(c, s, MainStep);
  }

  lemma {:induction false} CreateAll(c: Config, n: nat) returns (s: State)
    requires n <= c.Workers()
    ensures Reachable(c, s) && HasCreated(c, s, n)
  {
    hide Reachable, HasCreated;
    if n == 0 {
      s := FirstStep(c);
    } else {
      s := CreateAll(c, n - 1);
      s := CreateOne(c, s, n - 1);
    }
  }

  lemma StartSearch(c: Config, s0: State) returns (s: State)
    requires Reachable(c, s0) && HasCreated(c, s0, c.Workers())
    ensures Reachable(c, s) && s.workers == s0.workers && s.main.pc.Top? && Undecided(s.main)
    ensures s.g == Shared([c.root], 1, c.Workers(), 0, [])
  {
    hide CompareNext, DecideNext, EndNext, Reachable, Next;
    s := MainGoes(c, s0);
    s := MainGoes(c, s);
    s := MainGoes(c, s);
    s := MainGoes(c, s);
    s := MainGoes(c, s);
    s := MainGoes(c, s);
    s := MainGoes(c, s);
    s := MainGoes(c, s);
  }

  // ---- The workers come in ----

  lemma PassesStart(c: Config, s0: State, t: nat) returns (s: State)
    requires Reachable(c, s0) && t < |s0.workers| && s0.workers[t].pc.StartLock?
    requires s0.g.locks == map[] && s0.g.canStart
    ensures Reachable(c, s) && OnlyWorker(s0, s, t) && s.g == s0.g
    ensures s.workers[t] == s0.workers[t].(pc := LoopTest)
  {
    hide ScanNext, PlainNext, FailingNext, NappingNext, Reachable, Next;
    LockRoundTrip(StartMutex, ByWorker(t));
    s := Goes(c, s0, t, Ok);
    s := Goes(c, s, t, Ok);
    s := Goes(c, s, t, Ok);
  }

  lemma PassesGate(c: Config, s0: State, t: nat) returns (s: State)
    requires Reachable(c, s0) && t < |s0.workers| && s0.workers[t].pc.LoopTest?
    requires s0.g.locks == map[] && s0.g.sleeping >= 1 && !s0.g.runEnded
    ensures Reachable(c, s) && OnlyWorker(s0, s, t) && s.g == s0.g
    ensures s.workers[t] == s0.workers[t].(pc := TakeLock)
  {
    hide ScanNext, PlainNext, FailingNext, NappingNext, Reachable, Next;
    LockRoundTrip(SleepMutex, ByWorker(t));
    s := Goes(c, s0, t, Ok);
    s := Goes(c, s, t, Ok);
    s := Goes(c, s, t, Ok);
    s := Goes(c, s, t, Ok);
  }

  /** Worker `t` takes what is first in the queue, or nothing. */
  lemma Takes(c: Config, s0: State, t: nat) returns (s: State)
    requires Reachable(c, s0) && t < |s0.workers| && s0.workers[t].pc.TakeLock? && s0.g.locks == map[]
    ensures Reachable(c, s) && OnlyWorker(s0, s, t) && s.workers[t].pc.TakeTest?
    ensures s0.g.queue == [] ==> s.workers[t].curr.None? && s.g == s0.g
    ensures s0.g.queue != [] ==>
      s.workers[t].curr == Some(s0.g.queue[0]) && s.g == s0.g.(queue := s0.g.queue[1..])
  {
    hide ScanNext, TestNext, FailingNext, NappingNext, Reachable, Next;
    LockRoundTrip(QueueMutex, ByWorker(t));
    s := Goes(c, s0, t, Ok);
    s := Goes(c, s, t, Ok);
    s := Goes(c, s, t, Ok);
  }

  // ---- All but one go to sleep ----

  /** Worker `t` has found the queue empty. */
  lemma LiesDown(c: Config, s0: State, t: nat) returns (s: State)
    requires Reachable(c, s0) && t < |s0.workers| && s0.workers[t].pc.TakeTest? && s0.workers[t].curr.None?
    requires s0.g.locks == map[]
    ensures Reachable(c, s) && OnlyWorker(s0, s, t)
    ensures s.workers[t].pc.NapLoad? && s.g == s0.g.(locks := map[SleepMutex := ByWorker(t)])
  {
    hide ScanNext, FailingNext, PlainNext, NappingNext, Reachable, Next;
    s := Goes(c, s0, t, Ok);
    s := Goes(c, s, t, Ok);
  }

  lemma GivesBack(c: Config, s0: State, t: nat, l: Lock) returns (s: State)
    requires Reachable(c, s0) && t < |s0.workers| && Op(s0.workers[t].pc) == GiveOf(l)
    ensures Reachable(c, s) && OnlyWorker(s0, s, t) && s.g == s0.g.(locks := s0.g.locks - {l})
    ensures s.workers[t] == s0.workers[t].(pc := AfterOp(s0.workers[t].pc))
  {
    hide ScanNext, FailingNext, PlainNext, TestNext, NappingNext, Reachable, Next;
    s := Goes(c, s0, t, Ok);
  }

  lemma IsCounted(c: Config, s0: State, t: nat) returns (s: State)
    requires Reachable(c, s0) && t < |s0.workers| && s0.workers[t].pc.NapLoad?
    requires s0.g.locks == map[SleepMutex := ByWorker(t)]
    ensures Reachable(c, s) && OnlyWorker(s0, s, t)
    ensures s.workers[t].pc.WaitLock? && s.g == s0.g.(locks := map[], sleeping := s0.g.sleeping + 1)
  {
    hide ScanNext, FailingNext, PlainNext, TestNext, Reachable, Next;
    LockRoundTrip(SleepMutex, ByWorker(t));
    s := Goes(c, s0, t, Ok);
    s := Goes(c, s, t, Ok);
    s := GivesBack(c, s, t, SleepMutex);
  }

  lemma FallsAsleep(c: Config, s0: State, t: nat) returns (s: State)
    requires Reachable(c, s0) && t < |s0.workers| && s0.workers[t].pc.WaitLock? && s0.g.locks == map[]
    ensures Reachable(c, s) && OnlyWorker(s0, s, t) && s.workers[t].pc.Asleep? && s.g == s0.g
  {
    hide ScanNext, FailingNext, PlainNext, TestNext, NappingNext, Reachable, Next;
    LockRoundTrip(QueueMutex, ByWorker(t));
    s := Goes(c, s0, t, Ok);
    s := Goes(c, s, t, Ok);
  }

  /** Worker `t` comes in, finds nothing and sleeps. */
  lemma SleepOne(c: Config, s0: State, t: nat, n: nat) returns (s: State)
    requires Reachable(c, s0) && t < |s0.workers| && s0.workers[t].pc.StartLock?
    requires s0.g == Shared([], n, c.Workers(), 0, []) && n >= 1
    ensures Reachable(c, s) && OnlyWorker(s0, s, t) && s.workers[t].pc.Asleep?
    ensures s.g == Shared([], n + 1, c.Workers(), 0, [])
  {
    hide Reachable, Next, WorkerNext;
    s := PassesStart(c, s0, t);
    s := PassesGate(c, s, t);
    s := Takes(c, s, t);
    s := LiesDown(c, s, t);
    s := IsCounted(c, s, t);
    s := FallsAsleep(c, s, t);
  }

  /** Worker 0 holds the original directory, and workers 1 to `n` - 1 sleep. */
  predicate Sleeping(c: Config, s: State, n: nat) {
    && 1 <= n <= |s.workers| == c.Workers()
    && s.workers[0].pc.TakeTest? && s.workers[0].curr == Some(c.root)
    && (forall t :: 1 <= t < n ==> s.workers[t].pc.Asleep?)
    && (forall t :: n <= t < |s.workers| ==> s.workers[t].pc.StartLock?)
    && s.main.pc.Top? && Undecided(s.main)
    && s.g == Shared([], n, c.Workers(), 0, [])
  }

  lemma TakesRoot(c: Config) returns (s: State)
    requires c.limit >= 1
    ensures Reachable(c, s) && Sleeping(c, s, 1)
  {
    hide Reachable, Next, WorkerNext;
    s := CreateAll(c, c.Workers());
    s := StartSearch(c, s);
    s := PassesStart(c, s, 0);
    s := PassesGate(c, s, 0);
    s := Takes(c, s, 0);
  }

  lemma {:induction false} OthersSleep(c: Config, n: nat) returns (s: State)
    requires 1 <= n <= c.Workers()
    ensures Reachable(c, s) && Sleeping(c, s, n)
  {
    hide Reachable;
    if n == 1 {
      s := TakesRoot(c);
    } else {
      s := OthersSleep(c, n - 1);
      s := SleepOne(c, s, n - 1, n - 1);
    }
  }

  // ---- A worker queues a directory ----

  lemma IsQueued(c: Config, s0: State, t: nat) returns (s: State)
    requires Reachable(c, s0) && t < |s0.workers| && s0.workers[t].pc.PutLock? && s0.g.locks == map[]
    ensures Reachable(c, s) && OnlyWorker(s0, s, t) && s.workers[t] == s0.workers[t].(pc := CastLock)
    ensures s.g == s0.g.(queue := s0.g.queue + [Job(s0.workers[t].path, s0.workers[t].listing)])
  {
    hide ScanNext, FailingNext, NappingNext, TestNext, Reachable, Next;
    LockRoundTrip(QueueMutex, ByWorker(t));
    s := Goes(c, s0, t, Ok);
    s := Goes(c, s, t, Ok);
    s := Goes(c, s, t, Ok);
  }

  lemma GoesOnScanning(c: Config, s0: State, t: nat) returns (s: State)
    requires Reachable(c, s0) && t < |s0.workers| && s0.workers[t].pc.CastLock? && s0.g.locks == map[]
    ensures Reachable(c, s) && OnlyWorker(s0, s, t) && s.workers[t] == s0.workers[t].(pc := ScanTest) && s.g == s0.g
  {
    hide ScanNext, FailingNext, NappingNext, TestNext, PlainNext, Reachable, Next;
    LockRoundTrip(QueueMutex, ByWorker(t));
    s := Goes(c, s0, t, Ok);
    s := Goes(c, s, t, Ok);
    s := Goes(c, s, t, Ok);
    s := Goes(c, s, t, Ok);
  }

  // ---- Worker 0 scans ----

  /** All workers but number 0 sleep, and nobody has failed. */
  predicate Alone(c: Config, s: State) {
    && 1 <= |s.workers| == c.Workers()
    && (forall t :: 1 <= t < |s.workers| ==> s.workers[t].pc.Asleep?)
    && s.main.pc.Top? && Undecided(s.main)
    && s.g == Shared(s.g.queue, c.Workers(), c.Workers(), 0, s.g.visited)
  }

  lemma StaysAlone(c: Config, s0: State, s: State)
    requires Alone(c, s0) && OnlyWorker(s0, s, 0) && s.g == Shared(s.g.queue, c.Workers(), c.Workers(), 0, s.g.visited)
    ensures Alone(c, s)
  {
  }

  lemma Opens(c: Config, s0: State) returns (s: State)
    requires Reachable(c, s0) && Alone(c, s0) && s0.workers[0].pc.TakeTest? && s0.workers[0].curr.Some?
    ensures Reachable(c, s) && Alone(c, s) && s.g == s0.g && s.workers[0].pc.ScanTest? && !s.workers[0].bad
    ensures s.workers[0].curr == s0.workers[0].curr && s.workers[0].rest == s0.workers[0].curr.value.entries
  {
    hide PlainNext, FailingNext, NappingNext, Reachable, Next, AfterRead, Alone;
    assert s0.workers != [] && !s0.g.runEnded by {
      AloneRuns(c, s0);
    }
    s := Goes(c, s0, 0, Ok);
    s := Goes(c, s, 0, Ok);
    KeepsAlone(c, s0, s);
  }

  lemma AloneRuns(c: Config, s: State)
    requires Alone(c, s)
    ensures s.workers != [] && !s.g.runEnded && s.g.locks == map[] && s.g.sleeping >= 1
    ensures s.g == Shared(s.g.queue, c.Workers(), c.Workers(), 0, s.g.visited)
  {
  }

  lemma KeepsAlone(c: Config, s0: State, s: State)
    requires Alone(c, s0) && OnlyWorker(s0, s, 0) && s.g == s0.g
    ensures Alone(c, s)
  {
  }

  /** Worker 0 reads an entry that it skips. */
  lemma Skips(c: Config, s0: State, a: Answer) returns (s: State)
    requires Reachable(c, s0) && Alone(c, s0) && s0.workers[0].pc.ScanTest? && s0.workers[0].curr.Some?
    requires s0.workers[0].rest != [] && IsDots(s0.workers[0].rest[0].name)
    ensures Reachable(c, s) && Alone(c, s) && s.g == s0.g && s.workers[0].pc.ScanTest?
    ensures s.workers[0].curr == s0.workers[0].curr && s.workers[0].rest == s0.workers[0].rest[1..]
    ensures s.workers[0].bad == (s0.workers[0].bad || a.LstatFails?)
  {
    hide PlainNext, FailingNext, NappingNext, TestNext, Reachable, Next, Contains, Alone, IsDots;
    AloneRuns(c, s0);
    s := Goes(c, s0, 0, Ok);
    s := Goes(c, s, 0, a);
    KeepsAlone(c, s0, s);
  }

  /** What the answer makes of an entry that is taken for a directory. */
  function Listed(e: Entry, a: Answer): seq<Entry> {
    if a.LstatFails? then a.listing else if e.Dir? then e.entries else []
  }

  predicate TakenForDirectory(e: Entry, a: Answer) {
    !IsDots(e.name) && if a.LstatFails? then a.asDirectory else e.Dir?
  }

  lemma Reads(c: Config, s0: State, a: Answer) returns (s: State)
    requires Reachable(c, s0) && Alone(c, s0) && s0.workers[0].pc.ScanTest? && s0.workers[0].curr.Some?
    requires s0.workers[0].rest != [] && TakenForDirectory(s0.workers[0].rest[0], a)
    ensures Reachable(c, s) && Alone(c, s) && s.g == s0.g && s.workers[0].pc.PutLock?
    ensures s.workers[0].curr == s0.workers[0].curr && s.workers[0].rest == s0.workers[0].rest[1..]
    ensures s.workers[0].bad == (s0.workers[0].bad || a.LstatFails?)
    ensures Job(s.workers[0].path, s.workers[0].listing)
         == Job(s0.workers[0].curr.value.path + [s0.workers[0].rest[0].name], Listed(s0.workers[0].rest[0], a))
  {
    hide PlainNext, FailingNext, NappingNext, TestNext, Reachable, Next, Contains, Alone, IsDots;
    AloneRuns(c, s0);
    s := Goes(c, s0, 0, Ok);
    s := Goes(c, s, 0, a);
    KeepsAlone(c, s0, s);
  }

  lemma Puts(c: Config, s0: State) returns (s: State)
    requires Reachable(c, s0) && Alone(c, s0) && s0.workers[0].pc.PutLock? && s0.workers[0].curr.Some?
    ensures Reachable(c, s) && Alone(c, s) && s.workers[0] == s0.workers[0].(pc := CastLock)
    ensures s.g == s0.g.(queue := s0.g.queue + [Job(s0.workers[0].path, s0.workers[0].listing)])
  {
    hide Reachable, Next, WorkerNext, Alone;
    AloneRuns(c, s0);
    s := IsQueued(c, s0, 0);
    StaysAlone(c, s0, s);
  }

  lemma Casts(c: Config, s0: State) returns (s: State)
    requires Reachable(c, s0) && Alone(c, s0) && s0.workers[0].pc.CastLock?
    ensures Reachable(c, s) && Alone(c, s) && s.workers[0] == s0.workers[0].(pc := ScanTest) && s.g == s0.g
  {
    hide Reachable, Next, WorkerNext, Alone;
    AloneRuns(c, s0);
    s := GoesOnScanning(c, s0, 0);
    KeepsAlone(c, s0, s);
  }

  /** Worker 0 reads an entry and queues it as a directory. */
  lemma Queues(c: Config, s0: State, a: Answer) returns (s: State)
    requires Reachable(c, s0) && Alone(c, s0) && s0.workers[0].pc.ScanTest? && s0.workers[0].curr.Some?
    requires s0.workers[0].rest != [] && TakenForDirectory(s0.workers[0].rest[0], a)
    ensures Reachable(c, s) && Alone(c, s) && s.workers[0].pc.ScanTest?
    ensures s.workers[0].curr == s0.workers[0].curr && s.workers[0].rest == s0.workers[0].rest[1..]
    ensures s.workers[0].bad == (s0.workers[0].bad || a.LstatFails?)
    ensures s.g == s0.g.(queue := s0.g.queue
      + [Job(s0.workers[0].curr.value.path + [s0.workers[0].rest[0].name], Listed(s0.workers[0].rest[0], a))])
  {
    hide Reachable, Next, WorkerNext, Alone, TakenForDirectory, Listed;
    s := Reads(c, s0, a);
    s := Puts(c, s);
    s := Casts(c, s);
  }

  /** Every entry that is not skipped is queued, because `lstat` fails on all of them. */
  lemma {:induction false} QueuesAll(c: Config, s0: State) returns (s: State)
    requires Reachable(c, s0) && Alone(c, s0) && s0.workers[0].pc.ScanTest? && s0.workers[0].curr.Some?
    ensures Reachable(c, s) && Alone(c, s) && s.workers[0].pc.ScanTest?
    ensures s.workers[0].curr == s0.workers[0].curr && s.workers[0].rest == []
    ensures s.workers[0].bad == (s0.workers[0].bad || s0.workers[0].rest != [])
    ensures s0.g.queue != [] || (exists e :: e in s0.workers[0].rest && !IsDots(e.name)) ==> s.g.queue != []
    decreases |s0.workers[0].rest|
  {
    hide Reachable, Next, WorkerNext, Alone, IsDots;
    AloneRuns(c, s0);
    s := s0;
    if s0.workers[0].rest != [] {
      var rest := s0.workers[0].rest;
      if IsDots(rest[0].name) {
        s := Skips(c, s0, LstatFails(true, []));
      } else {
        s := Queues(c, s0, LstatFails(true, []));
      }
      AloneRuns(c, s);
      assert forall e :: e in rest ==> e == rest[0] || e in rest[1..];
      s := QueuesAll(c, s);
    }
  }

  // ---- Worker 0 fails ----

  lemma GivesUp(c: Config, s0: State) returns (s: State)
    requires Reachable(c, s0) && Alone(c, s0) && s0.workers[0].pc.ScanTest? && s0.workers[0].curr.Some?
    requires s0.workers[0].rest == [] && s0.workers[0].bad
    ensures Reachable(c, s) && Alone(c, s) && s.workers[0].pc.FailLock? && s.g == s0.g
  {
    hide PlainNext, FailingNext, NappingNext, TestNext, Reachable, Next, AfterRead, Alone;
    AloneRuns(c, s0);
    s := Goes(c, s0, 0, Ok);
    s := Goes(c, s, 0, Ok);
    s := Goes(c, s, 0, Ok);
    KeepsAlone(c, s0, s);
  }

  lemma CountsItself(c: Config, s0: State) returns (s: State)
    requires Reachable(c, s0) && Alone(c, s0) && s0.workers[0].pc.FailLock?
    ensures Reachable(c, s) && OnlyWorker(s0, s, 0) && s.workers[0].pc.LivingLoad?
    ensures s.g == s0.g.(locks := map[ErrorsLock := ByWorker(0)], errors := 1)
  {
    hide PlainNext, ScanNext, NappingNext, TestNext, Reachable, Next, Alone;
    AloneRuns(c, s0);
    s := Goes(c, s0, 0, Ok);
    s := Goes(c, s, 0, Ok);
    s := Goes(c, s, 0, Ok);
  }

  lemma Dies(c: Config, s0: State) returns (s: State)
    requires Reachable(c, s0) && s0.workers != [] && s0.workers[0].pc.LivingLoad?
    requires s0.g.locks == map[ErrorsLock := ByWorker(0)]
    ensures Reachable(c, s) && OnlyWorker(s0, s, 0) && s.g == s0.g.(locks := map[], living := s0.g.living - 1)
  {
    hide PlainNext, ScanNext, NappingNext, TestNext, Reachable, Next;
    LockRoundTrip(ErrorsLock, ByWorker(0));
    s := Goes(c, s0, 0, Ok);
    s := Goes(c, s, 0, Ok);
    s := Goes(c, s, 0, Ok);
  }

  // ---- Main gives its verdict ----

  /** One worker has failed, and all the others are counted as asleep. */
  predicate OneFailed(c: Config, g: Globals) {
    c.limit >= 2 && g == Shared(g.queue, c.limit, c.limit - 1, 1, g.visited)
  }

  lemma Compares(c: Config, s0: State) returns (s: State)
    requires Reachable(c, s0) && s0.main.pc.Top? && Undecided(s0.main) && OneFailed(c, s0.g)
    ensures Reachable(c, s) && s.workers == s0.workers && s.g == s0.g
    ensures s.main.pc.Sleep2Lock? && s.main.allFinished && !s.main.allErrors
  {
    hide CreateNext, OpenNext, DecideNext, EndNext, Reachable, Next;
    LockRoundTrip(ErrorsLock, ByMain);
    LockRoundTrip(SleepMutex, ByMain);
    s := MainGoes(c, s0);
    s := MainGoes(c, s);
    s := MainGoes(c, s);
    s := MainGoes(c, s);
    s := MainGoes(c, s);
    s := MainGoes(c, s);
    s := MainGoes(c, s);
    s := MainGoes(c, s);
  }

  lemma NotAllAsleep(c: Config, s0: State) returns (s: State)
    requires Reachable(c, s0) && s0.main.pc.Sleep2Lock? && s0.main.allFinished && OneFailed(c, s0.g)
    ensures Reachable(c, s) && s.workers == s0.workers && s.g == s0.g && s.main.pc.Errors2Lock? && s.main.allFinished
  {
    hide CreateNext, OpenNext, CompareNext, EndNext, Reachable, Next;
    LockRoundTrip(SleepMutex, ByMain);
    s := MainGoes(c, s0);
    s := MainGoes(c, s);
    s := MainGoes(c, s);
    s := MainGoes(c, s);
  }

  lemma Decides(c: Config, s0: State) returns (s: State)
    requires Reachable(c, s0) && s0.main.pc.Errors2Lock? && s0.main.allFinished && OneFailed(c, s0.g)
    ensures Reachable(c, s) && s.workers == s0.workers && s.g == s0.g && s.main.pc.SetEnded?
  {
    hide CreateNext, OpenNext, CompareNext, EndNext, Reachable, Next;
    LockRoundTrip(ErrorsLock, ByMain);
    s := MainGoes(c, s0);
    s := MainGoes(c, s);
    s := MainGoes(c, s);
    s := MainGoes(c, s);
  }

  lemma Reports(c: Config, s0: State) returns (s: State)
    requires Reachable(c, s0) && s0.main.pc.SetEnded? && s0.g.counter == 0 && !s0.g.allError
    ensures Reachable(c, s) && s.workers == s0.workers && s.g.queue == s0.g.queue && s.g.errors == s0.g.errors
    ensures s.main.pc.Exited? && s.main.reported == 0 && s.main.exitCode == 0
  {
    hide CreateNext, OpenNext, CompareNext, DecideNext, Reachable, Next;
    s := MainGoes(c, s0);
    s := MainGoes(c, s);
  }

  /** Main ends the search with exit code 0 when the only worker awake has failed. */
  lemma FailureEnds(c: Config, s0: State) returns (s: State)
    requires c.limit >= 2 && Reachable(c, s0) && Alone(c, s0) && s0.workers[0].pc.FailLock?
    ensures Reachable(c, s) && s.main.pc.Exited? && s.main.exitCode == 0 && s.main.reported == 0
    ensures s.g.queue == s0.g.queue && s.g.errors == 1
    ensures |s.workers| == c.limit && forall t :: 1 <= t < c.limit ==> s.workers[t].pc.Asleep?
  {
    hide Reachable, WorkerNext, MainNext;
    s := CountsItself(c, s0);
    s := Dies(c, s);
    s := Compares(c, s);
    s := NotAllAsleep(c, s);
    s := Decides(c, s);
    s := Reports(c, s);
  }

  /** With at least two threads and an entry to look at, some run ends with exit code 0 and work queued. */
  lemma WorkIsLeft(c: Config) returns (s: State)
    requires c.limit >= 2 && exists e :: e in c.root.entries && !IsDots(e.name)
    ensures Reachable(c, s) && s.main.pc.Exited? && s.main.exitCode == 0 && s.g.queue != []
  {
    hide Reachable, Alone, Sleeping, IsDots;
    s := OthersSleep(c, c.Workers());
    SleepersLeaveAlone(c, s);
    s := Opens(c, s);
    s := QueuesAll(c, s);
    s := GivesUp(c, s);
    s := FailureEnds(c, s);
  }

  lemma SleepersLeaveAlone(c: Config, s: State)
    requires Sleeping(c, s, c.Workers())
    ensures Alone(c, s) && s.workers[0].pc.TakeTest? && s.workers[0].curr == Some(c.root) && s.g.queue == []
  {
  }

  // ---- The same with nothing but an unreadable directory ----

  /** Two threads; below the original directory lie one that cannot be opened and one with a match. */
  function Small(): Config {
    Config(Job([], [Dir("a", []), Dir("d", [File("x")])]), "x", 2)
  }

  lemma Finishes(c: Config, s0: State) returns (s: State)
    requires Reachable(c, s0) && Alone(c, s0) && s0.workers[0].pc.ScanTest? && s0.workers[0].curr.Some?
    requires s0.workers[0].rest == [] && !s0.workers[0].bad
    ensures Reachable(c, s) && Alone(c, s) && s.workers[0].pc.LoopTest?
    ensures s.g == s0.g.(visited := s0.g.visited + [s0.workers[0].curr.value.path])
  {
    hide PlainNext, FailingNext, NappingNext, TestNext, Reachable, Next, AfterRead, Alone;
    AloneRuns(c, s0);
    s := Goes(c, s0, 0, Ok);
    s := Goes(c, s, 0, Ok);
    s := Goes(c, s, 0, Ok);
    StaysAlone(c, s0, s);
  }

  lemma CannotOpen(c: Config, s0: State) returns (s: State)
    requires Reachable(c, s0) && Alone(c, s0) && s0.workers[0].pc.TakeTest? && s0.workers[0].curr.Some?
    ensures Reachable(c, s) && Alone(c, s) && s.workers[0].pc.FailLock? && s.g == s0.g
  {
    hide PlainNext, FailingNext, NappingNext, Reachable, Next, AfterRead, Alone;
    AloneRuns(c, s0);
    s := Goes(c, s0, 0, Ok);
    s := Goes(c, s, 0, OpendirFails);
    KeepsAlone(c, s0, s);
  }

  /** Worker 0 takes the next directory. */
  lemma TakesNext(c: Config, s0: State) returns (s: State)
    requires Reachable(c, s0) && Alone(c, s0) && s0.workers[0].pc.LoopTest? && s0.g.queue != []
    ensures Reachable(c, s) && Alone(c, s) && s.workers[0].pc.TakeTest? && s.workers[0].curr == Some(s0.g.queue[0])
    ensures s.g.queue == s0.g.queue[1..]
  {
    hide Reachable, Alone;
    AloneRuns(c, s0);
    s := PassesGate(c, s0, 0);
    s := Takes(c, s, 0);
    StaysAlone(c, s0, s);
  }

  lemma OneFileMatches()
    ensures |MatchingFiles("x", [], Small().root.entries)| == 1
  {
    var inner := [File("x")];
    assert "x" == "" + "x" + "";
    assert MatchingIn("x", ["d"], inner[0]) == multiset{["d"] + ["x"]};
    assert MatchingFiles("x", ["d"], inner) == MatchingIn("x", ["d"], inner[0]) + MatchingFiles("x", ["d"], inner[1..]);
    assert |MatchingFiles("x", ["d"], inner)| == 1;
    var outer := [Dir("a", []), Dir("d", inner)];
    assert [] + ["d"] == ["d"];
    assert outer[1..] == [Dir("d", inner)];
    assert MatchingFiles("x", [], outer[1..])
        == MatchingIn("x", [], outer[1..][0]) + MatchingFiles("x", [], outer[1..][1..]);
    assert MatchingFiles("x", [], outer) == MatchingIn("x", [], outer[0]) + MatchingFiles("x", [], outer[1..]);
  }

  /** One directory that cannot be opened is enough: main reports 0 files with exit code 0, while the
      directory with the matching file is queued and a thread is asleep that could scan it. */
  lemma ErrorRouteStopsEarly() returns (s: State)
    ensures Reachable(Small(), s) && s.main.pc.Exited? && s.main.exitCode == 0 && s.g.errors == 1
    ensures s.main.reported == 0 && |MatchingFiles("x", [], Small().root.entries)| == 1
    ensures s.g.queue == [Job(["d"], [File("x")])] && |s.workers| == 2 && s.workers[1].pc.Asleep?
  {
    hide Reachable, Alone, Sleeping, MatchingFiles;
    var c := Small();
    s := OthersSleep(c, 2);
    SleepersLeaveAlone(c, s);
    s := Opens(c, s);
    s := Queues(c, s, Ok);
    s := Queues(c, s, Ok);
    s := Finishes(c, s);
    s := TakesNext(c, s);
    s := CannotOpen(c, s);
    s := FailureEnds(c, s);
    assert [] + ["d"] == ["d"];
    OneFileMatches();
  }
}
