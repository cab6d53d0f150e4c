/** What the parallel search guarantees, over every interleaving. */
module PfindTheorems {
  import opened Basics
  import opened FileTree
  import opened Pfind
  import opened PfindInvariant
  import opened PfindMain
  import opened PfindConservation

  // ---- Every run keeps the invariant and the conservation laws ----

  lemma {:induction false} RunInv(c: Config, schedule: seq<Event>)
    requires Run(c, schedule).Some?
    ensures Inv(c, Run(c, schedule).value)
  {
    hide Inv, Next;
    if schedule == [] {
      InitInv(c);
    } else {
      var n := |schedule| - 1;
      RunInv(c, schedule[..n]);
      NextInv(c, Run(c, schedule[..n]).value, schedule[n]);
    }
  }

  lemma NextInv(c: Config, s: State, e: Event)
    requires Inv(c, s) && Next(c, s, e).Some?
    ensures Inv(c, Next(c, s, e).value)
  {
    hide Inv, WorkerNext, MainNext;
    match e
    case MainStep =>
      var o := MainNext(c, s.main, s.g);
      MainStepInv(c, s, o.m, o.g);
    case WorkerStep(t, a) =>
      var o := WorkerNext(c, s.workers[t], s.g, t, a);
      WorkerStepInv(c, s, t, a, o.w, o.g);
  }

  lemma {:induction false} RunConserves(c: Config, schedule: seq<Event>, m: Measure)
    requires Run(c, schedule).Some?
    ensures Conserved(c, Run(c, schedule).value, m)
  {
    hide Inv, Next, Conserved;
    if schedule == [] {
      InitConserved(c, m);
    } else {
      var n := |schedule| - 1;
      RunInv(c, schedule[..n]);
      RunConserves(c, schedule[..n], m);
      NextConserves(c, Run(c, schedule[..n]).value, m, schedule[n]);
    }
  }

  lemma NextConserves(c: Config, s: State, m: Measure, e: Event)
    requires Inv(c, s) && Conserved(c, s, m) && Next(c, s, e).Some?
    ensures Conserved(c, Next(c, s, e).value, m)
  {
    hide Inv, WorkerNext, MainNext, Conserved;
    match e
    case MainStep =>
      var o := MainNext(c, s.main, s.g);
      MainStepConserves(c, s, m, o.m, o.g);
    case WorkerStep(t, a) =>
      var o := WorkerNext(c, s.workers[t], s.g, t, a);
      WorkerStepConserves(c, s, m, t, a, o.w, o.g);
  }

  // ---- The all-asleep test ----

  /** The search is complete: nobody has failed or is at work, nothing is queued, every matching file
      is counted and printed once, and every directory has been scanned once. */
  ghost predicate Settled(c: Config, s: State) {
    && s.g.errors == 0
    && s.g.queue == []
    && (forall t :: 0 <= t < |s.workers| ==> Calm(s.workers[t]))
    && s.g.counter == |MatchingFiles(c.needle, c.root.path, c.root.entries)|
    && multiset(s.g.output) == MatchingFiles(c.needle, c.root.path, c.root.entries)
    && multiset(s.g.visited) == AllFolders(c.root)
  }

  lemma QuietMass(c: Config, s: State, m: Measure)
    requires Inv(c, s) && Quiet(c, s) && Conserved(c, s, m) && c.limit > 0
    ensures Collected(s.g, m) == JobMass(c.needle, m, c.root)
  {
    hide Locked, NotStranded, Verdicts, Counted, NoLostUpdate, Mass, MainHolds, PendingMass;
    PendingNothing(c.needle, m, s.workers);
  }

  lemma QuietCounter(c: Config, schedule: seq<Event>, s: State)
    requires Run(c, schedule) == Some(s) && Inv(c, s) && Quiet(c, s) && c.limit > 0
    ensures s.g.counter == |MatchingFiles(c.needle, c.root.path, c.root.entries)|
  {
    hide Run, Inv, Quiet, Conserved, Mass, MatchingFiles;
    RunConserves(c, schedule, Matches);
    QuietMass(c, s, Matches);
    MassCountsMatches(c.needle, c.root.path, c.root.entries);
  }

  lemma QuietOutput(c: Config, schedule: seq<Event>, s: State)
    requires Run(c, schedule) == Some(s) && Inv(c, s) && Quiet(c, s) && c.limit > 0
    ensures multiset(s.g.output) == MatchingFiles(c.needle, c.root.path, c.root.entries)
  {
    hide Run, Inv, Quiet, Conserved, Mass, MatchingFiles;
    forall p
      ensures multiset(s.g.output)[p] == MatchingFiles(c.needle, c.root.path, c.root.entries)[p]
    {
      RunConserves(c, schedule, PrintedAt(p));
      QuietMass(c, s, PrintedAt(p));
      MassLocatesMatches(c.needle, p, c.root.path, c.root.entries);
    }
  }

  lemma QuietVisited(c: Config, schedule: seq<Event>, s: State)
    requires Run(c, schedule) == Some(s) && Inv(c, s) && Quiet(c, s) && c.limit > 0
    ensures multiset(s.g.visited) == AllFolders(c.root)
  {
    hide Run, Inv, Quiet, Conserved, Mass, Folders;
    forall p
      ensures multiset(s.g.visited)[p] == AllFolders(c.root)[p]
    {
      RunConserves(c, schedule, VisitedAt(p));
      QuietMass(c, s, VisitedAt(p));
      MassLocatesFolders(c.needle, p, c.root.path, c.root.entries);
    }
  }

  lemma QuietIsSettled(c: Config, schedule: seq<Event>, s: State)
    requires Run(c, schedule) == Some(s) && Quiet(c, s) && c.limit > 0
    ensures Settled(c, s)
  {
    hide Run, Inv, MatchingFiles, Folders;
    RunInv(c, schedule);
    QuietCounter(c, schedule, s);
    QuietOutput(c, schedule, s);
    QuietVisited(c, schedule, s);
  }

  /** While main holds the result 1 of `check_thread_sleeping` the search is complete. */
  lemma SleepTestIsExact(c: Config, schedule: seq<Event>, s: State)
    requires Run(c, schedule) == Some(s) && s.main.allAsleep && c.limit != 0
    ensures Settled(c, s)
  {
    hide Run, Locked, Shape, NoLostUpdate, Counted, NotStranded, Quiet, Settled;
    RunInv(c, schedule);
    QuietIsSettled(c, schedule, s);
  }

  /** Main does not test again after the result 1. */
  predicate TestedLast(m: Main) {
    m.allAsleep ==> m.pc.Sleep2Unlock? || m.pc.Sleep2Test? || Ending(m.pc)
  }

  lemma TestedOp(m: Main)
    requires TestedLast(m) && !MainOp(m.pc).NoLock?
    ensures TestedLast(m.(pc := MainAfterOp(m.pc)))
  {
  }

  lemma TestedEarlier(c: Config, m: Main, g: Globals, m': Main, g': Globals)
    requires TestedLast(m)
    requires CreateNext(c, m, g) == MainMoved(m', g') || OpenNext(m, g) == MainMoved(m', g')
          || CompareNext(m, g) == MainMoved(m', g')
    ensures TestedLast(m') && !m.allAsleep
  {
  }

  lemma TestedLater(c: Config, m: Main, g: Globals, m': Main, g': Globals)
    requires TestedLast(m)
    requires DecideNext(c, m, g) == MainMoved(m', g') || EndNext(m, g) == MainMoved(m', g')
    ensures TestedLast(m') && (m.allAsleep ==> m'.allAsleep)
  {
  }

  lemma TestedMain(c: Config, m: Main, g: Globals, m': Main, g': Globals)
    requires TestedLast(m) && MainNext(c, m, g) == MainMoved(m', g')
    ensures TestedLast(m') && (m.allAsleep ==> m'.allAsleep)
  {
    hide CreateNext, OpenNext, CompareNext, DecideNext, EndNext, TestedLast, MainAfterOp;
    if !MainOp(m.pc).NoLock? {
      TestedOp(m);
    } else if Creating(m.pc) || Opening(m.pc) || Comparing(m.pc) {
      TestedEarlier(c, m, g, m', g');
    } else {
      TestedLater(c, m, g, m', g');
    }
  }

  lemma TestedNext(c: Config, s: State, e: Event)
    requires TestedLast(s.main) && Next(c, s, e).Some?
    ensures TestedLast(Next(c, s, e).value.main)
    ensures s.main.allAsleep ==> Next(c, s, e).value.main.allAsleep
  {
    hide MainNext, WorkerNext, TestedLast;
    if e.MainStep? {
      var o := MainNext(c, s.main, s.g);
      TestedMain(c, s.main, s.g, o.m, o.g);
    }
  }

  lemma {:induction false} RunTested(c: Config, schedule: seq<Event>)
    requires Run(c, schedule).Some?
    ensures TestedLast(Run(c, schedule).value.main)
  {
    hide Next;
    if schedule != [] {
      var n := |schedule| - 1;
      RunTested(c, schedule[..n]);
      TestedNext(c, Run(c, schedule[..n]).value, schedule[n]);
    }
  }

  /** Once `check_thread_sleeping` has returned 1 the search is complete, then and in every later state. */
  lemma {:induction false} StaysSettled(c: Config, schedule: seq<Event>, s: State, more: seq<Event>, s': State)
    requires Run(c, schedule) == Some(s) && s.main.allAsleep && c.limit != 0
    requires Run(c, schedule + more) == Some(s')
    ensures s'.main.allAsleep && Settled(c, s')
    decreases |more|
  {
    hide Settled, Next;
    if more == [] {
      assert schedule + more == schedule;
    } else {
      var n := |more| - 1;
      assert (schedule + more)[..|schedule + more| - 1] == schedule + more[..n];
      var before := Run(c, schedule + more[..n]).value;
      StaysSettled(c, schedule, s, more[..n], before);
      RunTested(c, schedule + more[..n]);
      TestedNext(c, before, more[n]);
    }
    SleepTestIsExact(c, schedule + more, s');
  }

  // ---- The number printed at the end ----

  /** After the end the printed number stays equal to the counter, unless a worker has failed. */
  ghost predicate Final(c: Config, s: State) {
    && (s.g.allError ==> s.g.errors > 0)
    && (s.main.pc.Exited? ==> s.g.errors > 0 || (s.main.reported == s.g.counter && s.main.exitCode == 0))
  }

  lemma DecideReports(c: Config, m: Main, g: Globals, m': Main, g': Globals)
    requires DecideNext(c, m, g) == MainMoved(m', g')
    ensures !m'.pc.Exited? && (g'.allError ==> g.allError || g.errors == c.limit)
  {
  }

  lemma EndReports(m: Main, g: Globals, m': Main, g': Globals)
    requires EndNext(m, g) == MainMoved(m', g')
    ensures m'.pc.Exited? ==> m'.reported == g'.counter && m'.exitCode == One(g'.allError)
    ensures g'.allError == g.allError
  {
  }

  lemma EarlierReports(c: Config, m: Main, g: Globals, m': Main, g': Globals)
    requires CreateNext(c, m, g) == MainMoved(m', g') || OpenNext(m, g) == MainMoved(m', g')
          || CompareNext(m, g) == MainMoved(m', g')
    ensures !m'.pc.Exited? && g'.allError == g.allError
  {
  }

  lemma MainReports(c: Config, m: Main, g: Globals, m': Main, g': Globals)
    requires MainNext(c, m, g) == MainMoved(m', g')
    ensures m'.pc.Exited? ==> m'.reported == g'.counter && m'.exitCode == One(g'.allError)
    ensures g'.allError ==> g.allError || g.errors == c.limit
  {
    hide CreateNext, OpenNext, CompareNext, DecideNext, EndNext;
    if MainOp(m.pc).NoLock? {
      if Creating(m.pc) || Opening(m.pc) || Comparing(m.pc) {
        EarlierReports(c, m, g, m', g');
      } else if Ending(m.pc) {
        EndReports(m, g, m', g');
      } else {
        DecideReports(c, m, g, m', g');
      }
    }
  }

  lemma {:induction false} RunFinal(c: Config, schedule: seq<Event>)
    requires Run(c, schedule).Some? && c.limit > 0
    ensures Final(c, Run(c, schedule).value)
  {
    hide Inv, Next, Final;
    if schedule == [] {
      InitFinal(c);
    } else {
      var n := |schedule| - 1;
      RunInv(c, schedule[..n]);
      RunFinal(c, schedule[..n]);
      NextFinal(c, Run(c, schedule[..n]).value, schedule[n]);
    }
  }

  lemma InitFinal(c: Config)
    ensures Final(c, Init(c))
  {
  }

  lemma NextFinal(c: Config, s: State, e: Event)
    requires Inv(c, s) && Final(c, s) && c.limit > 0 && Next(c, s, e).Some?
    ensures Final(c, Next(c, s, e).value)
  {
    hide WorkerNext, MainNext, Locked, NotStranded, QueueEffect;
    match e
    case MainStep =>
      var o := MainNext(c, s.main, s.g);
      MainEffect(c, s.main, s.g, o.m, o.g);
      MainReports(c, s.main, s.g, o.m, o.g);
    case WorkerStep(t, a) =>
      var o := WorkerNext(c, s.workers[t], s.g, t, a);
      WorkerEffect(c, s.workers[t], s.g, t, a, o.w, o.g);
      if Holds(s.workers[t].pc, CounterLock) {
        CountingIsWork(s.workers[t], s.g);
      }
  }

  lemma CountingIsWork(w: Worker, g: Globals)
    requires WorkerShape(w, g) && Holds(w.pc, CounterLock)
    ensures !Calm(w)
  {
  }

  /** The number printed is exact and the exit code is 0, unless a worker has failed. */
  lemma ReportIsExact(c: Config, schedule: seq<Event>, s: State)
    requires Run(c, schedule) == Some(s) && s.main.pc.Exited? && c.limit > 0 && s.g.errors == 0
    ensures Settled(c, s) && s.main.exitCode == 0
    ensures s.main.reported == |MatchingFiles(c.needle, c.root.path, c.root.entries)|
  {
    RunInv(c, schedule);
    RunFinal(c, schedule);
    QuietIsSettled(c, schedule, s);
  }

  // ---- The thread count ----

  lemma {:induction false} MainOnlyRuns(c: Config, schedule: seq<Event>)
    requires Run(c, schedule).Some? && c.limit <= 0
    ensures Run(c, schedule).value.g.counter == 0
  {
    hide Inv, Next;
    if schedule != [] {
      var n := |schedule| - 1;
      MainOnlyRuns(c, schedule[..n]);
      RunInv(c, schedule[..n]);
      MainOnlyStep(c, Run(c, schedule[..n]).value, schedule[n]);
    }
  }

  lemma MainOnlyStep(c: Config, s: State, e: Event)
    requires Inv(c, s) && c.limit <= 0 && Next(c, s, e).Some?
    ensures Next(c, s, e).value.g.counter == s.g.counter
  {
    hide MainNext, WorkerNext, Locked, NotStranded, Verdicts;
    if e.MainStep? {
      var o := MainNext(c, s.main, s.g);
      MainEffectOf(c, s, o.m, o.g);
    }
  }

  lemma MainEffectOf(c: Config, s: State, m': Main, g': Globals)
    requires Inv(c, s) && MainNext(c, s.main, s.g) == MainMoved(m', g')
    ensures g'.counter == s.g.counter && g'.errors == s.g.errors
  {
    hide MainNext, Locked, NotStranded;
    MainEffect(c, s.main, s.g, m', g');
  }

  /** `k` steps of the main thread alone lead from one state to the other. */
  ghost predicate Leads(c: Config, m: Main, g: Globals, k: nat, m': Main, g': Globals)
    decreases k
  {
    if k == 0 then m == m' && g == g'
    else MainNext(c, m, g).MainMoved? && Leads(c, MainNext(c, m, g).m, MainNext(c, m, g).g, k - 1, m', g')
  }

  lemma {:induction false} LeadsOn(c: Config, m: Main, g: Globals, j: nat, m1: Main, g1: Globals,
                                   k: nat, m2: Main, g2: Globals)
    requires Leads(c, m, g, j, m1, g1) && Leads(c, m1, g1, k, m2, g2)
    ensures Leads(c, m, g, j + k, m2, g2)
    decreases j
  {
    hide MainNext;
    if j > 0 {
      LeadsOn(c, MainNext(c, m, g).m, MainNext(c, m, g).g, j - 1, m1, g1, k, m2, g2);
    }
  }

  /** With no workers such steps make a run. */
  lemma {:induction false} LeadsIsRun(c: Config, schedule: seq<Event>, m: Main, g: Globals,
                                      k: nat, m': Main, g': Globals)
    returns (schedule': seq<Event>)
    requires Run(c, schedule) == Some(State([], m, g)) && Leads(c, m, g, k, m', g')
    ensures Run(c, schedule') == Some(State([], m', g'))
    decreases k
  {
    hide MainNext;
    schedule' := schedule;
    if k > 0 {
      var o := MainNext(c, m, g);
      assert (schedule + [MainStep])[..|schedule|] == schedule;
      schedule' := LeadsIsRun(c, schedule + [MainStep], o.m, o.g, k - 1, m', g');
    }
  }

  lemma FourSteps(c: Config, m: Main, g: Globals, o: MainOutcome, p: MainOutcome, q: MainOutcome, r: MainOutcome)
    requires MainNext(c, m, g) == o && o.MainMoved? && MainNext(c, o.m, o.g) == p && p.MainMoved?
    requires MainNext(c, p.m, p.g) == q && q.MainMoved? && MainNext(c, q.m, q.g) == r && r.MainMoved?
    ensures Leads(c, m, g, 4, r.m, r.g)
  {
    hide MainNext;
    assert Leads(c, r.m, r.g, 0, r.m, r.g);
    assert Leads(c, q.m, q.g, 1, r.m, r.g);
    assert Leads(c, p.m, p.g, 2, r.m, r.g);
    assert Leads(c, o.m, o.g, 3, r.m, r.g);
  }

  /** The globals of the counterexample: only the original directory queued. */
  predicate Untouched(c: Config, g: Globals, sleeping: int) {
    g.queue == [c.root] && g.sleeping == sleeping && !g.runEnded
  }

  lemma NobodyIsCreated(c: Config, m: Main, g: Globals) returns (m': Main, g': Globals)
    requires c.limit == 0 && m.pc.EnqueueRoot? && m.created == 0
    requires g.locks == map[] && g.queue == [] && g.sleeping == 0 && !g.runEnded
    ensures Leads(c, m, g, 4, m', g') && m'.pc.OpenUnlock? && Untouched(c, g', 0)
    ensures g'.locks == map[StartMutex := ByMain]
  {
    hide CompareNext, DecideNext, EndNext, Leads;
    var o := MainNext(c, m, g);
    var p := MainNext(c, o.m, o.g);
    var q := MainNext(c, p.m, p.g);
    var r := MainNext(c, q.m, q.g);
    FourSteps(c, m, g, o, p, q, r);
    m', g' := r.m, r.g;
  }

  lemma MainCountsItself(c: Config, m: Main, g: Globals) returns (m': Main, g': Globals)
    requires m.pc.OpenUnlock? && Untouched(c, g, 0) && g.locks == map[StartMutex := ByMain]
    ensures Leads(c, m, g, 4, m', g') && m'.pc.OneUnlock? && Untouched(c, g', 1)
    ensures g'.locks == map[SleepMutex := ByMain]
  {
    hide CreateNext, CompareNext, DecideNext, EndNext, Leads;
    var o := MainNext(c, m, g);
    var p := MainNext(c, o.m, o.g);
    var q := MainNext(c, p.m, p.g);
    var r := MainNext(c, q.m, q.g);
    FourSteps(c, m, g, o, p, q, r);
    m', g' := r.m, r.g;
  }

  lemma MainReadsErrors(c: Config, m: Main, g: Globals) returns (m': Main, g': Globals)
    requires m.pc.OneUnlock? && Untouched(c, g, 1) && g.locks == map[SleepMutex := ByMain]
    ensures Leads(c, m, g, 4, m', g') && m'.pc.Errors1Unlock? && Untouched(c, g', 1)
    ensures g'.locks == map[ErrorsLock := ByMain]
  {
    hide CreateNext, OpenNext, DecideNext, EndNext, Leads;
    var o := MainNext(c, m, g);
    var p := MainNext(c, o.m, o.g);
    var q := MainNext(c, p.m, p.g);
    var r := MainNext(c, q.m, q.g);
    FourSteps(c, m, g, o, p, q, r);
    m', g' := r.m, r.g;
  }

  lemma MainReadsSleepers(c: Config, m: Main, g: Globals) returns (m': Main, g': Globals)
    requires m.pc.Errors1Unlock? && Untouched(c, g, 1) && g.locks == map[ErrorsLock := ByMain]
    ensures Leads(c, m, g, 4, m', g') && m'.pc.Compare? && Untouched(c, g', 1) && g'.locks == map[]
  {
    hide CreateNext, OpenNext, DecideNext, EndNext, Leads;
    var o := MainNext(c, m, g);
    var p := MainNext(c, o.m, o.g);
    var q := MainNext(c, p.m, p.g);
    var r := MainNext(c, q.m, q.g);
    FourSteps(c, m, g, o, p, q, r);
    m', g' := r.m, r.g;
  }

  lemma MainSeesAllAsleep(c: Config, m: Main, g: Globals) returns (m': Main, g': Globals)
    requires c.limit == 0 && m.pc.Compare? && Untouched(c, g, 1) && g.locks == map[]
    ensures Leads(c, m, g, 4, m', g') && m'.allAsleep && g'.queue == [c.root]
  {
    hide CreateNext, OpenNext, EndNext, Leads;
    var o := MainNext(c, m, g);
    var p := MainNext(c, o.m, o.g);
    var q := MainNext(c, p.m, p.g);
    var r := MainNext(c, q.m, q.g);
    FourSteps(c, m, g, o, p, q, r);
    m', g' := r.m, r.g;
  }

  lemma MainReachesTop(c: Config) returns (m': Main, g': Globals)
    requires c.limit == 0
    ensures Leads(c, Init(c).main, Init(c).g, 12, m', g')
    ensures m'.pc.Errors1Unlock? && Untouched(c, g', 1) && g'.locks == map[ErrorsLock := ByMain]
  {
    var m0, g0 := Init(c).main, Init(c).g;
    var m1, g1 := NobodyIsCreated(c, m0, g0);
    var m2, g2 := MainCountsItself(c, m1, g1);
    LeadsOn(c, m0, g0, 4, m1, g1, 4, m2, g2);
    m', g' := MainReadsErrors(c, m2, g2);
    LeadsOn(c, m0, g0, 8, m2, g2, 4, m', g');
  }

  /** With a thread count of 0 the test succeeds at once, with the original directory still queued. */
  lemma NoThreadsStopAtOnce(c: Config) returns (schedule: seq<Event>, s: State)
    requires c.limit == 0
    ensures Run(c, schedule) == Some(s) && s.main.allAsleep && s.g.queue == [c.root]
  {
    hide MainNext;
    var m0, g0 := Init(c).main, Init(c).g;
    var m3, g3 := MainReachesTop(c);
    var m4, g4 := MainReadsSleepers(c, m3, g3);
    LeadsOn(c, m0, g0, 12, m3, g3, 4, m4, g4);
    var m5, g5 := MainSeesAllAsleep(c, m4, g4);
    LeadsOn(c, m0, g0, 16, m4, g4, 4, m5, g5);
    assert Init(c).workers == [];
    schedule := LeadsIsRun(c, [], m0, g0, 20, m5, g5);
    s := State([], m5, g5);
  }

  /** The count is right at every successful all-asleep test if and only if the thread count is not 0
      or there is nothing to find. */
  lemma SleepTestSoundIff(c: Config)
    ensures (forall schedule: seq<Event>, s: State :: Run(c, schedule) == Some(s) && s.main.allAsleep ==>
               s.g.counter == |MatchingFiles(c.needle, c.root.path, c.root.entries)|)
        <==> (c.limit != 0 || MatchingFiles(c.needle, c.root.path, c.root.entries) == multiset{})
  {
    if c.limit != 0 {
      forall schedule: seq<Event>, s: State | Run(c, schedule) == Some(s) && s.main.allAsleep
        ensures s.g.counter == |MatchingFiles(c.needle, c.root.path, c.root.entries)|
      {
        SleepTestIsExact(c, schedule, s);
      }
    } else {
      forall schedule: seq<Event>, s: State | Run(c, schedule) == Some(s)
        ensures s.g.counter == 0
      {
        MainOnlyRuns(c, schedule);
      }
      var schedule, s := NoThreadsStopAtOnce(c);
      assert Run(c, schedule) == Some(s) && s.main.allAsleep && s.g.counter == 0;
    }
  }

  // ---- The counters ----

  lemma {:induction false} SumSame(j: Tally, k: Tally, ws: seq<Worker>)
    requires forall t :: 0 <= t < |ws| ==> Score(j, ws[t]) == Score(k, ws[t])
    ensures Sum(j, ws) == Sum(k, ws)
  {
    if ws != [] {
      assert forall t :: 0 <= t < |ws[1..]| ==> ws[1..][t] == ws[t + 1];
      SumSame(j, k, ws[1..]);
    }
  }

  /** Once main has counted itself, `sleeping_threads_available` is 1 plus the napping workers, so no
      worker blocks at line 249 again. Outside the critical section of the errors lock the living
      and the failed workers make up all of them. */
  lemma CountersAgree(c: Config, schedule: seq<Event>, s: State)
    requires Run(c, schedule) == Some(s) && Started(s.main.pc) && c.limit >= 0
    ensures s.g.sleeping == 1 + Sum(Naps, s.workers) && 1 <= s.g.sleeping <= c.limit + 1
    ensures ErrorsLock !in s.g.locks ==> s.g.living + s.g.errors == c.limit
  {
    RunInv(c, schedule);
    SumAtMost(Naps, s.workers);
    if ErrorsLock !in s.g.locks {
      forall t | 0 <= t < |s.workers|
        ensures Score(Failed, s.workers[t]) == Score(Gone, s.workers[t])
      {
        assert !OwnedBy(s.g, ErrorsLock, ByWorker(t));
        FailedOrGone(s.workers[t]);
      }
      SumSame(Failed, Gone, s.workers);
    }
  }

  lemma FailedOrGone(w: Worker)
    requires !Holds(w.pc, ErrorsLock)
    ensures HasFailed(w) <==> HasGone(w)
  {
  }

  // ---- No work is stranded ----

  lemma {:induction false} SomeoneNotIdle(ws: seq<Worker>) returns (t: nat)
    requires Sum(Idle, ws) < |ws|
    ensures t < |ws| && !IsIdle(ws[t])
  {
    if IsIdle(ws[0]) {
      t := SomeoneNotIdle(ws[1..]);
      t := t + 1;
    } else {
      t := 0;
    }
  }

  /** Awake and without an error: a worker who goes on to the next `deQueue`. */
  predicate WillReturn(w: Worker) {
    !InSleepPath(w) && !HasFailed(w) && !w.pc.Finished? && !Doomed(w)
  }

  /** Before the end of the run a queued directory is never left to sleeping workers only: somebody
      outside the sleep path, who has met no error, will come back to the queue, unless a worker has
      failed or is about to. */
  lemma WorkIsNotStranded(c: Config, schedule: seq<Event>, s: State)
    requires Run(c, schedule) == Some(s) && c.limit > 0 && s.g.queue != [] && !s.g.runEnded && s.g.errors == 0
    ensures || (exists t :: 0 <= t < |s.workers| && WillReturn(s.workers[t]))
            || (exists t :: 0 <= t < |s.workers| && Doomed(s.workers[t]))
  {
    RunInv(c, schedule);
    var t := SomeoneNotIdle(s.workers);
    assert !IsIdle(s.workers[t]);
  }

  // ---- The queue is first in, first out ----

  /** What the pointer queue can do to its sequence: nothing, `deQueue` or `enQueue`. */
  predicate IsFifoStep(q: seq<Job>, q': seq<Job>) {
    || q' == q
    || (q != [] && q' == q[1..])
    || (q' != [] && q'[..|q'| - 1] == q)
  }

  lemma WorkerQueueStep(c: Config, w: Worker, g: Globals, t: nat, a: Answer)
    requires WorkerNext(c, w, g, t, a).Moved?
    ensures IsFifoStep(g.queue, WorkerNext(c, w, g, t, a).g.queue)
  {
    hide AfterOp, ScanNext, FailingNext, NappingNext, TestNext, PlainNext, IsFifoStep;
    PlainQueueStep(w, g);
    OtherQueueStep(c, w, g, a);
    SameQueue(g.queue);
  }

  lemma PlainQueueStep(w: Worker, g: Globals)
    ensures PlainNext(w, g).Moved? ==> IsFifoStep(g.queue, PlainNext(w, g).g.queue)
  {
  }

  lemma OtherQueueStep(c: Config, w: Worker, g: Globals, a: Answer)
    ensures ScanNext(c, w, g, a).Moved? ==> ScanNext(c, w, g, a).g.queue == g.queue
    ensures FailingNext(w, g).Moved? ==> FailingNext(w, g).g.queue == g.queue
    ensures NappingNext(w, g).Moved? ==> NappingNext(w, g).g.queue == g.queue
    ensures TestNext(w, g).Moved? ==> TestNext(w, g).g.queue == g.queue
  {
    hide AfterRead;
  }

  lemma SameQueue(q: seq<Job>)
    ensures IsFifoStep(q, q)
  {
  }

  lemma MainQueueStep(c: Config, m: Main, g: Globals)
    requires MainNext(c, m, g).MainMoved?
    ensures IsFifoStep(g.queue, MainNext(c, m, g).g.queue)
  {
    hide MainAfterOp;
  }

  /** No step of any thread does to the queue anything but these. */
  lemma QueueIsFifo(c: Config, s: State, e: Event)
    requires Next(c, s, e).Some?
    ensures IsFifoStep(s.g.queue, Next(c, s, e).value.g.queue)
  {
    hide WorkerNext, MainNext, IsFifoStep;
    match e
    case MainStep => MainQueueStep(c, s.main, s.g);
    case WorkerStep(t, a) => WorkerQueueStep(c, s.workers[t], s.g, t, a);
  }

  // ---- Locks ----

  /** Some thread that holds a lock can take its next step. */
  ghost predicate HolderCanStep(c: Config, s: State) {
    || ((exists k :: MainHolds(s.main.pc, k)) && Next(c, s, MainStep).Some?)
    || (exists t: nat :: t < |s.workers| && (exists k :: Holds(s.workers[t].pc, k))
                         && Next(c, s, WorkerStep(t, Ok)).Some?)
  }

  /** Inside a critical section only `WakeLock` asks for a second lock. */
  lemma InsideMoves(c: Config, w: Worker, g: Globals, t: nat, l: Lock)
    requires Holds(w.pc, l) && (w.pc.WakeLock? ==> SleepMutex !in g.locks)
    ensures WorkerNext(c, w, g, t, Ok).Moved?
  {
  }

  lemma MainInsideMoves(c: Config, m: Main, g: Globals, l: Lock)
    requires MainHolds(m.pc, l)
    ensures MainNext(c, m, g).MainMoved?
  {
  }

  lemma WakeLockHolds(w: Worker)
    requires w.pc.WakeLock?
    ensures !Holds(w.pc, SleepMutex)
  {
  }

  lemma HolderMoves(c: Config, s: State, t: nat, l: Lock)
    requires t < |s.workers| && Holds(s.workers[t].pc, l)
    requires s.workers[t].pc.WakeLock? ==> SleepMutex !in s.g.locks
    ensures HolderCanStep(c, s)
  {
    InsideMoves(c, s.workers[t], s.g, t, l);
    assert Next(c, s, WorkerStep(t, Ok)).Some? by {
      hide WorkerNext;
    }
  }

  lemma MainHolderMoves(c: Config, s: State, l: Lock)
    requires MainHolds(s.main.pc, l)
    ensures HolderCanStep(c, s)
  {
    MainInsideMoves(c, s.main, s.g, l);
    assert Next(c, s, MainStep).Some? by {
      hide MainNext;
    }
  }

  /** The locks never deadlock: while any of them is held, some holder can step. */
  lemma NoDeadlock(c: Config, schedule: seq<Event>, s: State, l: Lock)
    requires Run(c, schedule) == Some(s) && l in s.g.locks
    ensures HolderCanStep(c, s)
  {
    hide Inv, HolderCanStep;
    RunInv(c, schedule);
    SomeHolderMoves(c, s, l);
  }

  lemma SomeHolderMoves(c: Config, s: State, l: Lock)
    requires Inv(c, s) && l in s.g.locks
    ensures HolderCanStep(c, s)
  {
    hide WorkerNext, MainNext, SectionOf, HolderCanStep, Shape, NotStranded, Verdicts, Counted, NoLostUpdate;
    match s.g.locks[l]
    case ByMain =>
      assert OwnedBy(s.g, l, ByMain);
      MainHolderMoves(c, s, l);
    case ByWorker(t) =>
      assert OwnedBy(s.g, l, ByWorker(t));
      if s.workers[t].pc.WakeLock? && SleepMutex in s.g.locks {
        match s.g.locks[SleepMutex] {
          case ByMain =>
            assert OwnedBy(s.g, SleepMutex, ByMain);
            MainHolderMoves(c, s, SleepMutex);
          case ByWorker(u) =>
            assert OwnedBy(s.g, SleepMutex, ByWorker(u));
            if s.workers[u].pc.WakeLock? {
              WakeLockHolds(s.workers[u]);
            }
            HolderMoves(c, s, u, SleepMutex);
        }
      } else {
        HolderMoves(c, s, t, l);
      }
  }

  /** The only nested acquisition is the queue lock, then the sleeping lock. */
  lemma OneNesting(w: Worker, m: Main, l: Lock)
    ensures Holds(w.pc, l) && Op(w.pc).TakeOf? ==> l == QueueMutex && Op(w.pc).l == SleepMutex
    ensures MainHolds(m.pc, l) ==> !MainOp(m.pc).TakeOf?
  {
  }

  // ---- Where every directory is ----

  /** How often `p` is the path of a queued directory. */
  function QueuedAt(p: Path, q: seq<Job>): nat {
    if q == [] then 0 else One(q[0].path == p) + QueuedAt(p, q[1..])
  }

  /** How often `p` is the path of a directory a worker has taken and not finished. */
  function HeldAt(p: Path, ws: seq<Worker>): nat {
    if ws == [] then 0 else One(Holding(ws[0]) && ws[0].curr.value.path == p) + HeldAt(p, ws[1..])
  }

  /** How often `p` lies below a queued directory. */
  function BelowQueued(p: Path, q: seq<Job>): nat {
    if q == [] then 0 else Folders(q[0].path, q[0].entries)[p] + BelowQueued(p, q[1..])
  }

  /** How often `p` lies in what a worker has not read, or has read and not yet queued. */
  function Unread(p: Path, w: Worker): nat {
    if !Holding(w) then 0
    else if BeforeScan(w.pc) then Folders(w.curr.value.path, w.curr.value.entries)[p]
    else Folders(w.curr.value.path, w.rest)[p]
         + (if w.pc.PutLock? || w.pc.Put? then AllFolders(Job(w.path, w.listing))[p] else 0)
  }

  function UnreadAt(p: Path, ws: seq<Worker>): nat {
    if ws == [] then 0 else Unread(p, ws[0]) + UnreadAt(p, ws[1..])
  }

  /** Neither scanned nor queued nor held: nobody has found it yet. */
  function Undiscovered(p: Path, s: State): nat {
    BelowQueued(p, s.g.queue) + UnreadAt(p, s.workers)
  }

  lemma {:induction false} QueueMassSplits(needle: string, p: Path, q: seq<Job>)
    ensures QueueMass(needle, VisitedAt(p), q) == QueuedAt(p, q) + BelowQueued(p, q)
  {
    if q != [] {
      MassLocatesFolders(needle, p, q[0].path, q[0].entries);
      QueueMassSplits(needle, p, q[1..]);
    }
  }

  lemma PendingMassSplits(needle: string, p: Path, w: Worker)
    ensures PendingMass(needle, VisitedAt(p), w)
         == One(Holding(w) && w.curr.value.path == p) + Unread(p, w)
  {
    if Holding(w) {
      MassLocatesFolders(needle, p, w.curr.value.path, w.curr.value.entries);
      MassLocatesFolders(needle, p, w.curr.value.path, w.rest);
      MassLocatesFolders(needle, p, w.path, w.listing);
    }
  }

  lemma {:induction false} PendingSumSplits(needle: string, p: Path, ws: seq<Worker>)
    ensures PendingSum(needle, VisitedAt(p), ws) == HeldAt(p, ws) + UnreadAt(p, ws)
  {
    if ws != [] {
      PendingMassSplits(needle, p, ws[0]);
      PendingSumSplits(needle, p, ws[1..]);
    }
  }

  /** While nobody has met an error every directory of the tree is in exactly one place: scanned to
      the end, queued, held by one worker, or not discovered; no other path is in any of them. */
  lemma FoldersArePartitioned(c: Config, schedule: seq<Event>, s: State, p: Path)
    requires Run(c, schedule) == Some(s) && s.main.pc != EnqueueRoot && Clean(s)
    requires DistinctNames(c.root.entries)
    ensures Count(p, s.g.visited) + QueuedAt(p, s.g.queue) + HeldAt(p, s.workers) + Undiscovered(p, s)
         == if p in AllFolders(c.root) then 1 else 0
  {
    RunConserves(c, schedule, VisitedAt(p));
    QueueMassSplits(c.needle, p, s.g.queue);
    PendingSumSplits(c.needle, p, s.workers);
    MassLocatesFolders(c.needle, p, c.root.path, c.root.entries);
    AllFoldersDistinct(c.root, p);
  }
}
