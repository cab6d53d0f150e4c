/** What exit code 0 of pfind means, and exactly when it means that no work is left. */
module PfindExit {
  import opened Basics
  import opened FileTree
  import opened Pfind
  import opened PfindInvariant
  import opened PfindMain
  import opened PfindConservation
  import opened PfindTheorems
  import opened PfindLosses
  import opened PfindProgress
  import opened PfindErrorRoute

  // ---- A single thread ----

  /** With one thread every verdict but the all-asleep test makes main report the error. */
  predicate Confessed(m: Main, g: Globals) {
    && (m.allErrors ==> g.allError)
    && (m.pc.Errors2Unlock? || m.pc.Errors2Test? ==> m.allFinished ==> g.allError)
    && (Ending(m.pc) ==> m.allAsleep || g.allError)
    && (m.pc.Exited? ==> m.exitCode == One(g.allError))
  }

  lemma ConfessedOp(m: Main, g: Globals, locks: LockTable)
    requires Confessed(m, g) && !MainOp(m.pc).NoLock?
    ensures Confessed(m.(pc := MainAfterOp(m.pc)), g.(locks := locks))
  {
  }

  lemma ConfessedStart(c: Config, m: Main, g: Globals, m': Main, g': Globals)
    requires Confessed(m, g) && (CreateNext(c, m, g) == MainMoved(m', g') || OpenNext(m, g) == MainMoved(m', g'))
    ensures Confessed(m', g')
  {
  }

  lemma ConfessedCompare(m: Main, g: Globals, m': Main, g': Globals)
    requires Confessed(m, g) && (m.pc.Top? ==> !g.runEnded) && CompareNext(m, g) == MainMoved(m', g')
    ensures Confessed(m', g')
  {
  }

  lemma ConfessedDecide(c: Config, m: Main, g: Globals, m': Main, g': Globals)
    requires Confessed(m, g) && (m.allFinished ==> g.errors == c.limit)
    requires DecideNext(c, m, g) == MainMoved(m', g') || EndNext(m, g) == MainMoved(m', g')
    ensures Confessed(m', g')
  {
  }

  lemma ConfessedMain(c: Config, m: Main, g: Globals, m': Main, g': Globals)
    requires Confessed(m, g) && (m.allFinished ==> g.errors == c.limit) && (m.pc.Top? ==> !g.runEnded)
    requires MainNext(c, m, g) == MainMoved(m', g')
    ensures Confessed(m', g')
  {
    hide CreateNext, OpenNext, CompareNext, DecideNext, EndNext, Confessed, MainAfterOp;
    if !MainOp(m.pc).NoLock? {
      ConfessedOp(m, g, g'.locks);
    } else if Creating(m.pc) || Opening(m.pc) {
      ConfessedStart(c, m, g, m', g');
    } else if Comparing(m.pc) {
      ConfessedCompare(m, g, m', g');
    } else {
      ConfessedDecide(c, m, g, m', g');
    }
  }

  /** With one thread, `all_threads_finished` means that it has failed. */
  lemma OneThread(c: Config, s: State)
    requires Inv(c, s) && Honest(s) && c.limit == 1
    ensures s.main.allFinished ==> s.g.errors == c.limit
    ensures s.main.pc.Top? ==> !s.g.runEnded
  {
    hide Locked, NoLostUpdate, NotStranded, WorkerShape;
    SumAtMost(Failed, s.workers);
  }

  lemma ConfessedNext(c: Config, s: State, e: Event)
    requires Inv(c, s) && Honest(s) && c.limit == 1 && Confessed(s.main, s.g) && Next(c, s, e).Some?
    ensures Confessed(Next(c, s, e).value.main, Next(c, s, e).value.g)
  {
    hide WorkerNext, MainNext, Inv, Honest;
    match e
    case MainStep =>
      var o := MainNext(c, s.main, s.g);
      OneThread(c, s);
      ConfessedMain(c, s.main, s.g, o.m, o.g);
    case WorkerStep(t, a) =>
      var o := WorkerNext(c, s.workers[t], s.g, t, a);
      NoVerdictByWorkers(c, s, t, a, o.w, o.g);
  }

  lemma NoVerdictByWorkers(c: Config, s: State, t: nat, a: Answer, w': Worker, g': Globals)
    requires Inv(c, s) && t < |s.workers| && WorkerNext(c, s.workers[t], s.g, t, a) == Moved(w', g')
    ensures g'.allError == s.g.allError
  {
    hide WorkerNext, Locked, NotStranded, Verdicts;
    ErrorsCount(s);
    WorkerEffect(c, s.workers[t], s.g, t, a, w', g');
  }

  lemma ErrorsCount(s: State)
    requires Counted(s)
    ensures s.g.errors >= 0
  {
  }

  lemma {:induction false} RunConfessed(c: Config, schedule: seq<Event>)
    requires Run(c, schedule).Some? && c.limit == 1
    ensures Confessed(Run(c, schedule).value.main, Run(c, schedule).value.g)
  {
    hide Inv, Honest, Next, Confessed;
    if schedule == [] {
      InitConfessed(c);
    } else {
      var n := |schedule| - 1;
      RunInv(c, schedule[..n]);
      RunHonest(c, schedule[..n]);
      RunConfessed(c, schedule[..n]);
      ConfessedNext(c, Run(c, schedule[..n]).value, schedule[n]);
    }
  }

  lemma InitConfessed(c: Config)
    ensures Confessed(Init(c).main, Init(c).g)
  {
  }

  /** With one thread, main exits with code 0 exactly if the thread has not failed, and then the search is
      complete and the printed number is right. */
  lemma OneThreadIsExact(c: Config, schedule: seq<Event>, s: State)
    requires Run(c, schedule) == Some(s) && c.limit == 1 && s.main.pc.Exited?
    ensures s.main.exitCode == 0 <==> s.g.errors == 0
    ensures s.main.exitCode == 0 ==>
      Settled(c, s) && s.main.reported == |MatchingFiles(c.needle, c.root.path, c.root.entries)|
  {
    hide Run, MatchingFiles, AllFolders;
    RunConfessed(c, schedule);
    RunFinal(c, schedule);
    if s.main.exitCode == 0 {
      SleepTestIsExact(c, schedule, s);
    }
  }

  // ---- Nothing to look at ----

  predicate AllDots(entries: seq<Entry>) {
    forall e :: e in entries ==> IsDots(e.name)
  }

  /** The worker has no entry before it that leads anywhere. */
  predicate Tame(w: Worker) {
    && (w.curr.Some? ==> AllDots(w.curr.value.entries)) && AllDots(w.rest)
    && !w.pc.PutLock? && !w.pc.Put?
    && (InFailure(w.pc) ==> w.curr.Some?)
  }

  /** Only the original directory is ever queued, and it is taken once. */
  ghost predicate OnlyRoot(s: State) {
    && |s.g.queue| <= 1 && (forall j :: j in s.g.queue ==> AllDots(j.entries))
    && (s.main.pc.EnqueueRoot? ==> s.g.queue == [])
    && (forall t :: 0 <= t < |s.workers| ==> Tame(s.workers[t]))
    && (s.main.pc.EnqueueRoot? || s.g.queue != [] ==> forall t :: 0 <= t < |s.workers| ==> s.workers[t].curr.None?)
  }

  /** What a step of a tame worker does to the queue. */
  predicate TameStep(w: Worker, g: Globals, w': Worker, g': Globals) {
    && Tame(w')
    && (|| (g'.queue == g.queue && w'.curr == w.curr)
        || (g'.queue == g.queue == [] && w'.curr.None?)
        || (g.queue != [] && g'.queue == g.queue[1..]))
  }

  lemma TameOp(w: Worker, g: Globals, locks: LockTable)
    requires Tame(w) && !Op(w.pc).NoLock?
    ensures TameStep(w, g, w.(pc := AfterOp(w.pc)), g.(locks := locks))
  {
    hide AllDots;
  }

  lemma TameScan(c: Config, w: Worker, g: Globals, a: Answer, w': Worker, g': Globals)
    requires Tame(w) && ScanNext(c, w, g, a) == Moved(w', g')
    ensures TameStep(w, g, w', g')
  {
    hide Contains, IsDots;
  }

  lemma TameFailing(w: Worker, g: Globals, w': Worker, g': Globals)
    requires Tame(w) && (FailingNext(w, g) == Moved(w', g') || NappingNext(w, g) == Moved(w', g'))
    ensures TameStep(w, g, w', g')
  {
    hide AllDots;
  }

  lemma TameTest(w: Worker, g: Globals, w': Worker, g': Globals)
    requires Tame(w) && TestNext(w, g) == Moved(w', g')
    ensures TameStep(w, g, w', g')
  {
    hide AllDots;
  }

  lemma TamePlain(w: Worker, g: Globals, w': Worker, g': Globals)
    requires Tame(w) && (forall j :: j in g.queue ==> AllDots(j.entries)) && PlainNext(w, g) == Moved(w', g')
    ensures TameStep(w, g, w', g')
  {
    hide AllDots;
  }

  lemma TameWorker(c: Config, w: Worker, g: Globals, t: nat, a: Answer, w': Worker, g': Globals)
    requires Tame(w) && (forall j :: j in g.queue ==> AllDots(j.entries))
    requires WorkerNext(c, w, g, t, a) == Moved(w', g')
    ensures TameStep(w, g, w', g')
  {
    hide ScanNext, FailingNext, NappingNext, TestNext, PlainNext, Tame, TameStep, AllDots, AfterOp;
    if !Op(w.pc).NoLock? {
      TameOp(w, g, g'.locks);
    } else if InScan(w.pc) {
      TameScan(c, w, g, a, w', g');
    } else if InFailing(w.pc) || InNapping(w.pc) {
      TameFailing(w, g, w', g');
    } else if InTest(w.pc) {
      TameTest(w, g, w', g');
    } else {
      TamePlain(w, g, w', g');
    }
  }

  lemma OnlyRootNext(c: Config, s: State, e: Event)
    requires Inv(c, s) && OnlyRoot(s) && AllDots(c.root.entries) && Next(c, s, e).Some?
    ensures OnlyRoot(Next(c, s, e).value)
  {
    hide WorkerNext, MainNext, Inv, AllDots, OnlyRoot;
    match e
    case MainStep =>
      var o := MainNext(c, s.main, s.g);
      MainQueues(c, s, o.m, o.g);
      OnlyRootMain(c, s, o.m, o.g);
    case WorkerStep(t, a) =>
      var o := WorkerNext(c, s.workers[t], s.g, t, a);
      TameThere(s, t);
      TameWorker(c, s.workers[t], s.g, t, a, o.w, o.g);
      OnlyRootWorker(s, t, o.w, o.g);
  }

  lemma TameThere(s: State, t: nat)
    requires OnlyRoot(s) && t < |s.workers|
    ensures Tame(s.workers[t]) && forall j :: j in s.g.queue ==> AllDots(j.entries)
  {
    hide Tame, AllDots;
  }

  lemma OnlyRootWorker(s: State, t: nat, w': Worker, g': Globals)
    requires OnlyRoot(s) && t < |s.workers| && TameStep(s.workers[t], s.g, w', g')
    ensures OnlyRoot(State(s.workers[t := w'], s.main, g'))
  {
    hide Tame, AllDots;
  }

  lemma MainQueues(c: Config, s: State, m': Main, g': Globals)
    requires Inv(c, s) && MainNext(c, s.main, s.g) == MainMoved(m', g')
    ensures !m'.pc.EnqueueRoot?
    ensures g'.queue == if s.main.pc.EnqueueRoot? then s.g.queue + [c.root] else s.g.queue
  {
    hide MainNext, Locked, NotStranded, Counted, Quiet, VerdictEffect, MainCountEffect;
    MainEffect(c, s.main, s.g, m', g');
  }

  lemma OnlyRootMain(c: Config, s: State, m': Main, g': Globals)
    requires OnlyRoot(s) && AllDots(c.root.entries) && !m'.pc.EnqueueRoot?
    requires g'.queue == if s.main.pc.EnqueueRoot? then s.g.queue + [c.root] else s.g.queue
    ensures OnlyRoot(State(Spawn(s.workers, s.main), m', g'))
  {
    hide AllDots;
  }

  lemma {:induction false} RunOnlyRoot(c: Config, schedule: seq<Event>)
    requires Run(c, schedule).Some? && AllDots(c.root.entries)
    ensures OnlyRoot(Run(c, schedule).value)
  {
    hide Inv, Next, OnlyRoot;
    if schedule == [] {
      InitOnlyRoot(c);
    } else {
      var n := |schedule| - 1;
      RunInv(c, schedule[..n]);
      RunOnlyRoot(c, schedule[..n]);
      OnlyRootNext(c, Run(c, schedule[..n]).value, schedule[n]);
    }
  }

  lemma InitOnlyRoot(c: Config)
    ensures OnlyRoot(Init(c))
  {
  }

  /** If there is nothing to look at, nothing is left at the end. */
  lemma NothingToLookAt(c: Config, schedule: seq<Event>, s: State)
    requires Run(c, schedule) == Some(s) && s.main.pc.Exited? && c.limit > 0 && AllDots(c.root.entries)
    ensures s.g.queue == []
  {
    hide Run, Locked, Shape, NoLostUpdate, NotStranded, AllDots;
    RunInv(c, schedule);
    RunOnlyRoot(c, schedule);
    if s.g.queue != [] {
      forall t | 0 <= t < |s.workers|
        ensures Score(Failed, s.workers[t]) == 0
      {
        assert Tame(s.workers[t]);
      }
      SumZero(Failed, s.workers);
    }
  }

  // ---- A negative number of threads ----

  /** The test cannot succeed, and nobody can fail. */
  predicate Waits(m: Main) {
    !Ending(m.pc) && !m.allErrors && !m.allFinished
  }

  lemma WaitsNext(c: Config, s: State, e: Event)
    requires Inv(c, s) && Waits(s.main) && c.limit < 0 && Next(c, s, e).Some?
    ensures Waits(Next(c, s, e).value.main)
  {
    hide WorkerNext, MainNext, Locked, NotStranded, Quiet;
    if e.MainStep? {
      var o := MainNext(c, s.main, s.g);
      MainEffect(c, s.main, s.g, o.m, o.g);
    }
  }

  lemma {:induction false} NeverExits(c: Config, schedule: seq<Event>)
    requires Run(c, schedule).Some? && c.limit < 0
    ensures Waits(Run(c, schedule).value.main)
  {
    hide Inv, Next;
    if schedule != [] {
      var n := |schedule| - 1;
      RunInv(c, schedule[..n]);
      NeverExits(c, schedule[..n]);
      WaitsNext(c, Run(c, schedule[..n]).value, schedule[n]);
    }
  }

  // ---- No threads ----

  lemma NobodyFailed0(c: Config, s0: State) returns (s: State)
    requires c.limit == 0 && Reachable(c, s0) && s0.main.pc.Top? && Undecided(s0.main)
    requires s0.g == Shared([c.root], 1, 0, 0, [])
    ensures Reachable(c, s) && s.main.pc.Sleep2Lock? && s.g == s0.g
  {
    hide CreateNext, OpenNext, DecideNext, EndNext, Reachable, Next;
    LockRoundTrip(ErrorsLock, ByMain);
    LockRoundTrip(SleepMutex, ByMain);
    s := MainGoes(c, s0);
    s := MainGoes(c, s);
    s := MainGoes(c, s);
    s := MainGoes(c, s);
    s := MainGoes(c, s);
    s := MainGoes(c, s);
    s := MainGoes(c, s);
    s := MainGoes(c, s);
  }

  lemma EverybodySleeps0(c: Config, s0: State) returns (s: State)
    requires c.limit == 0 && Reachable(c, s0) && s0.main.pc.Sleep2Lock? && s0.g == Shared([c.root], 1, 0, 0, [])
    ensures Reachable(c, s) && s.main.pc.SetEnded? && s.g == s0.g
  {
    hide CreateNext, OpenNext, CompareNext, EndNext, Reachable, Next;
    LockRoundTrip(SleepMutex, ByMain);
    s := MainGoes(c, s0);
    s := MainGoes(c, s);
    s := MainGoes(c, s);
    s := MainGoes(c, s);
  }

  /** With no threads main exits with code 0 and the original directory queued. */
  lemma NoThreadsExit(c: Config) returns (s: State)
    requires c.limit == 0
    ensures Reachable(c, s) && s.main.pc.Exited? && s.main.exitCode == 0 && s.g.queue == [c.root]
  {
    hide Reachable, HasCreated;
    s := CreateAll(c, 0);
    s := StartSearch(c, s);
    s := NobodyFailed0(c, s);
    s := EverybodySleeps0(c, s);
    s := Reports(c, s);
  }

  // ---- Exactly when ----

  /** Exit code 0 means that no directory is left queued, in every run, if and only if the number of
      threads is not 0, and is at most 1 or the original directory lists nothing but dots. */
  lemma ExitMeansDoneIff(c: Config)
    ensures (forall schedule: seq<Event>, s: State ::
               Run(c, schedule) == Some(s) && s.main.pc.Exited? && s.main.exitCode == 0 ==> s.g.queue == [])
        <==> (c.limit != 0 && (c.limit <= 1 || forall e :: e in c.root.entries ==> IsDots(e.name)))
  {
    hide Run, Next, IsDots;
    if c.limit != 0 && (c.limit <= 1 || AllDots(c.root.entries)) {
      forall schedule: seq<Event>, s: State | Run(c, schedule) == Some(s) && s.main.pc.Exited? && s.main.exitCode == 0
        ensures s.g.queue == []
      {
        DoneAtExit(c, schedule, s);
      }
    } else {
      var schedule, s := StopsEarly(c);
    }
  }

  /** Otherwise some run ends with exit code 0 and a directory queued. */
  lemma StopsEarly(c: Config) returns (schedule: seq<Event>, s: State)
    requires c.limit == 0 || (c.limit >= 2 && !AllDots(c.root.entries))
    ensures Run(c, schedule) == Some(s) && s.main.pc.Exited? && s.main.exitCode == 0 && s.g.queue != []
  {
    hide Run, IsDots;
    if c.limit == 0 {
      s := NoThreadsExit(c);
    } else {
      s := WorkIsLeft(c);
    }
    schedule :| Run(c, schedule) == Some(s);
  }

  /** Exit code 0 means that the search is complete, in every run, if and only if there is one thread, or
      main never exits because the number of threads is negative. */
  lemma ExitMeansSettledIff(c: Config)
    ensures (forall schedule: seq<Event>, s: State ::
               Run(c, schedule) == Some(s) && s.main.pc.Exited? && s.main.exitCode == 0 ==> Settled(c, s))
        <==> (c.limit < 0 || c.limit == 1)
  {
    hide Run, Settled, MatchingFiles;
    if c.limit < 0 || c.limit == 1 {
      forall schedule: seq<Event>, s: State | Run(c, schedule) == Some(s) && s.main.pc.Exited? && s.main.exitCode == 0
        ensures Settled(c, s)
      {
        if c.limit < 0 {
          NeverExits(c, schedule);
        } else {
          OneThreadIsExact(c, schedule, s);
        }
      }
    } else {
      var schedule, s := StopsUnsettled(c);
    }
  }

  /** With two threads or more it is enough that the original directory cannot be opened. */
  lemma StopsUnsettled(c: Config) returns (schedule: seq<Event>, s: State)
    requires c.limit == 0 || c.limit >= 2
    ensures Run(c, schedule) == Some(s) && s.main.pc.Exited? && s.main.exitCode == 0 && !Settled(c, s)
  {
    hide Run, Alone, Sleeping, MatchingFiles, AllFolders;
    if c.limit == 0 {
      s := NoThreadsExit(c);
    } else {
      s := RootUnread(c);
    }
    schedule :| Run(c, schedule) == Some(s);
  }

  lemma RootUnread(c: Config) returns (s: State)
    requires c.limit >= 2
    ensures Reachable(c, s) && s.main.pc.Exited? && s.main.exitCode == 0 && s.g.errors == 1
  {
    hide Reachable, Alone, Sleeping;
    s := OthersSleep(c, c.Workers());
    SleepersLeaveAlone(c, s);
    s := CannotOpen(c, s);
    s := FailureEnds(c, s);
  }

  lemma DoneAtExit(c: Config, schedule: seq<Event>, s: State)
    requires Run(c, schedule) == Some(s) && s.main.pc.Exited? && s.main.exitCode == 0
    requires c.limit != 0 && (c.limit <= 1 || AllDots(c.root.entries))
    ensures s.g.queue == []
  {
    hide Run, AllDots;
    if c.limit < 0 {
      NeverExits(c, schedule);
    } else if c.limit == 1 {
      OneThreadIsExact(c, schedule, s);
    } else {
      NothingToLookAt(c, schedule, s);
    }
  }
}
