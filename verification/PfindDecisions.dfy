/** What the threads of pfind decide, said of the names they read and the places the others are at: which
    entries are counted, when main ends the search, when workers start and that they stop. */
module PfindDecisions {
  import opened Basics
  import opened FileTree
  import opened Pfind
  import opened PfindInvariant
  import opened PfindMain
  import opened PfindConservation
  import opened PfindTheorems
  import opened PfindErrorRoute

  // ---- One entry ----

  /** Where the worker goes with the entry it has read: a directory is queued and a file is counted if the
      search string is a part of its name, whatever comes before and after, but never "." and "..". */
  lemma EntryIsRead(c: Config, s: State, t: nat, a: Answer, s': State)
    requires t < |s.workers| && s.workers[t].pc.ReadEntry? && s.workers[t].curr.Some? && s.workers[t].rest != []
    requires Next(c, s, WorkerStep(t, a)) == Some(s')
    ensures var w, w', e := s.workers[t], s'.workers[t], s.workers[t].rest[0];
      var isDirectory := if a.LstatFails? then a.asDirectory else e.Dir?;
      && s' == State(s.workers[t := w'], s.main, s.g)
      && w'.rest == w.rest[1..] && w'.curr == w.curr && w'.path == w.curr.value.path + [e.name]
      && (w'.bad <==> w.bad || a.LstatFails?)
      && w'.listing == (if a.LstatFails? then a.listing else if e.Dir? then e.entries else [])
      && (w'.pc.ScanTest? || w'.pc.PutLock? || w'.pc.CountLock?)
      && (w'.pc.PutLock? <==> e.name != "." && e.name != ".." && isDirectory)
      && (w'.pc.CountLock? <==> e.name != "." && e.name != ".." && !isDirectory
                                && exists u: string, v: string :: e.name == u + c.needle + v)
  {
    hide PlainNext, FailingNext, NappingNext, TestNext, Contains;
    ContainsIsPart(s.workers[t].rest[0].name, c.needle);
  }

  lemma StartsReading(c: Config, s0: State, t: nat) returns (s: State)
    requires Reachable(c, s0) && t < |s0.workers| && s0.workers[t].pc.ScanTest? && s0.workers[t].curr.Some?
    requires !s0.g.runEnded
    ensures Reachable(c, s) && OnlyWorker(s0, s, t) && s.g == s0.g
    ensures s.workers[t] == s0.workers[t].(pc := ReadEntry)
  {
    hide PlainNext, FailingNext, NappingNext, TestNext, Reachable, Next, AfterRead;
    s := Goes(c, s0, t, Ok);
  }

  lemma IsRead(c: Config, s0: State, t: nat, a: Answer) returns (s: State)
    requires Reachable(c, s0) && t < |s0.workers| && s0.workers[t].pc.ReadEntry? && s0.workers[t].curr.Some?
    requires s0.workers[t].rest != []
    ensures Reachable(c, s) && OnlyWorker(s0, s, t) && s.g == s0.g
    ensures s.workers[t] == AfterRead(c, s0.workers[t], a)
  {
    hide PlainNext, FailingNext, NappingNext, TestNext, Reachable, Next, AfterRead;
    s := Goes(c, s0, t, a);
  }

  lemma AddsOne(c: Config, s0: State, t: nat) returns (s: State)
    requires Reachable(c, s0) && t < |s0.workers| && s0.workers[t].pc.CountLock? && s0.g.locks == map[]
    ensures Reachable(c, s) && OnlyWorker(s0, s, t) && s.workers[t].pc.CountUnlock?
    ensures s.workers[t].rest == s0.workers[t].rest && s.workers[t].path == s0.workers[t].path
    ensures s.g == s0.g.(locks := map[CounterLock := ByWorker(t)], counter := s0.g.counter + 1)
  {
    hide ScanNext, FailingNext, NappingNext, TestNext, Reachable, Next;
    s := Goes(c, s0, t, Ok);
    s := Goes(c, s, t, Ok);
    s := Goes(c, s, t, Ok);
  }

  lemma IsPrinted(c: Config, s0: State, t: nat) returns (s: State)
    requires Reachable(c, s0) && t < |s0.workers| && s0.workers[t].pc.CountUnlock?
    requires s0.g.locks == map[CounterLock := ByWorker(t)]
    ensures Reachable(c, s) && OnlyWorker(s0, s, t) && s.workers[t].pc.ScanTest?
    ensures s.workers[t].rest == s0.workers[t].rest
    ensures s.g == s0.g.(locks := map[], output := s0.g.output + [s0.workers[t].path])
  {
    hide ScanNext, FailingNext, NappingNext, TestNext, Reachable, Next;
    LockRoundTrip(CounterLock, ByWorker(t));
    s := Goes(c, s0, t, Ok);
    s := Goes(c, s, t, Ok);
  }

  /** One entry from `readdir` to the next one, if nobody else steps in between: what it adds to the queue,
      the counter and the output, by its name and kind. */
  lemma EntryIsHandled(c: Config, s0: State, t: nat) returns (s: State)
    requires Reachable(c, s0) && t < |s0.workers| && s0.workers[t].pc.ScanTest? && s0.workers[t].curr.Some?
    requires s0.workers[t].rest != [] && s0.g.locks == map[] && !s0.g.runEnded
    ensures Reachable(c, s) && OnlyWorker(s0, s, t) && s.workers[t].pc.ScanTest?
    ensures s.workers[t].rest == s0.workers[t].rest[1..]
    ensures var e := s0.workers[t].rest[0];
      var path := s0.workers[t].curr.value.path + [e.name];
      s.g == if e.name == "." || e.name == ".." then s0.g
             else if e.Dir? then s0.g.(queue := s0.g.queue + [Job(path, e.entries)])
             else if exists u: string, v: string :: e.name == u + c.needle + v
             then s0.g.(counter := s0.g.counter + 1, output := s0.g.output + [path])
             else s0.g
  {
    hide Reachable, Next, WorkerNext, Contains;
    ContainsIsPart(s0.workers[t].rest[0].name, c.needle);
    s := StartsReading(c, s0, t);
    s := IsRead(c, s, t, Ok);
    if s.workers[t].pc.PutLock? {
      s := IsQueued(c, s, t);
      s := GoesOnScanning(c, s, t);
    } else if s.workers[t].pc.CountLock? {
      s := AddsOne(c, s, t);
      s := IsPrinted(c, s, t);
    }
  }

  // ---- When main ends the search ----

  /** The worker sleeps, or is about to and counted as asleep, or it has failed. */
  predicate AtRest(pc: PC) {
    pc.WaitLock? || pc.Asleep? || pc.Dead?
  }

  lemma RestsWithoutLocks(w: Worker)
    requires forall l :: !Holds(w.pc, l)
    ensures AtRest(w.pc) <==> Napping(w) || HasFailed(w)
    ensures w.pc.Dead? <==> HasFailed(w)
  {
    assert !Holds(w.pc, QueueMutex) && !Holds(w.pc, SleepMutex) && !Holds(w.pc, ErrorsLock);
  }

  lemma {:induction false} AllCounted(ws: seq<Worker>)
    ensures Sum(Naps, ws) + Sum(Failed, ws) <= |ws|
    ensures Sum(Naps, ws) + Sum(Failed, ws) == |ws|
       <==> forall t :: 0 <= t < |ws| ==> Napping(ws[t]) || HasFailed(ws[t])
    ensures Sum(Failed, ws) == |ws| <==> forall t :: 0 <= t < |ws| ==> HasFailed(ws[t])
  {
    if ws != [] {
      AllCounted(ws[1..]);
      SumAtMost(Failed, ws[1..]);
      assert forall t :: 0 < t < |ws| ==> ws[t] == ws[1..][t - 1];
      assert forall t :: 0 <= t < |ws[1..]| ==> ws[1..][t] == ws[t + 1];
    }
  }

  /** The counters that main reads, by where the workers are. */
  lemma CountersSay(c: Config, s: State)
    requires Inv(c, s) && Started(s.main.pc) && s.g.locks == map[] && c.limit >= 0
    ensures s.g.errors >= 0 && s.g.sleeping >= 1 && s.g.living == c.limit - s.g.errors
    ensures s.g.sleeping - 1 + s.g.errors <= c.limit == |s.workers|
    ensures s.g.sleeping - 1 + s.g.errors == c.limit
       <==> forall t :: 0 <= t < |s.workers| ==> AtRest(s.workers[t].pc)
    ensures s.g.errors == c.limit <==> forall t :: 0 <= t < |s.workers| ==> s.workers[t].pc.Dead?
  {
    hide Shape, NoLostUpdate, NotStranded, Verdicts, AtRest;
    ShapeSize(c, s);
    forall t | 0 <= t < |s.workers|
      ensures AtRest(s.workers[t].pc) <==> Napping(s.workers[t]) || HasFailed(s.workers[t])
      ensures s.workers[t].pc.Dead? <==> HasFailed(s.workers[t])
      ensures Score(Failed, s.workers[t]) == Score(Gone, s.workers[t])
    {
      forall l
        ensures !Holds(s.workers[t].pc, l)
      {
        assert !OwnedBy(s.g, l, ByWorker(t));
      }
      RestsWithoutLocks(s.workers[t]);
      FailedOrGone(s.workers[t]);
    }
    AllCounted(s.workers);
    SumSame(Failed, Gone, s.workers);
  }

  lemma ShapeSize(c: Config, s: State)
    requires Inv(c, s) && Started(s.main.pc)
    ensures |s.workers| == c.Workers() == Births(s.main)
  {
    hide Locked, NoLostUpdate, NotStranded, Verdicts, Counted;
  }

  lemma NobodyCounted(c: Config, s: State)
    requires Inv(c, s) && Started(s.main.pc) && c.limit < 0
    ensures s.g.errors == 0 && s.g.sleeping == 1
  {
    hide Locked, NoLostUpdate, NotStranded, Verdicts;
  }

  lemma MainTakes(c: Config, m: Main, g: Globals, l: Lock)
    requires MainOp(m.pc) == TakeOf(l) && l !in g.locks
    ensures MainNext(c, m, g) == MainMoved(m.(pc := MainAfterOp(m.pc)), g.(locks := g.locks[l := ByMain]))
  {
  }

  lemma MainGives(c: Config, m: Main, g: Globals, l: Lock)
    requires MainOp(m.pc) == GiveOf(l)
    ensures MainNext(c, m, g) == MainMoved(m.(pc := MainAfterOp(m.pc)), g.(locks := g.locks - {l}))
  {
  }

  lemma MainThinks(c: Config, m: Main, g: Globals)
    requires MainOp(m.pc).NoLock?
    ensures Comparing(m.pc) ==> MainNext(c, m, g) == CompareNext(m, g)
    ensures m.pc.Sleep2Read? || m.pc.Sleep2Test? || m.pc.Errors2Read? || m.pc.Errors2Test? ==>
      MainNext(c, m, g) == DecideNext(c, m, g)
  {
    hide CreateNext, OpenNext, CompareNext, DecideNext, EndNext;
  }

  lemma ReadsErrors(c: Config, m: Main, g: Globals) returns (m': Main)
    requires m.pc.Top? && !g.runEnded && g.locks == map[]
    ensures Leads(c, m, g, 4, m', g) && m'.pc.Sleep1Lock? && m'.errored == g.errors
  {
    hide MainNext, DecideNext, Leads;
    LockRoundTrip(ErrorsLock, ByMain);
    MainThinks(c, m, g);
    var o := MainNext(c, m, g);
    MainTakes(c, o.m, o.g, ErrorsLock);
    var p := MainNext(c, o.m, o.g);
    MainThinks(c, p.m, p.g);
    var q := MainNext(c, p.m, p.g);
    MainGives(c, q.m, q.g, ErrorsLock);
    var r := MainNext(c, q.m, q.g);
    FourSteps(c, m, g, o, p, q, r);
    m' := r.m;
  }

  lemma ReadsSleepers(c: Config, m: Main, g: Globals) returns (m': Main)
    requires m.pc.Sleep1Lock? && m.errored == g.errors && g.locks == map[]
    ensures Leads(c, m, g, 4, m', g) && m'.pc.Sleep2Lock?
    ensures m'.allFinished <==> g.errors > 0 && g.sleeping == g.living + 1
  {
    hide MainNext, DecideNext, Leads;
    LockRoundTrip(SleepMutex, ByMain);
    MainTakes(c, m, g, SleepMutex);
    var o := MainNext(c, m, g);
    MainThinks(c, o.m, o.g);
    var p := MainNext(c, o.m, o.g);
    MainGives(c, p.m, p.g, SleepMutex);
    var q := MainNext(c, p.m, p.g);
    MainThinks(c, q.m, q.g);
    var r := MainNext(c, q.m, q.g);
    FourSteps(c, m, g, o, p, q, r);
    m' := r.m;
  }

  lemma TestsSleepers(c: Config, m: Main, g: Globals) returns (m': Main)
    requires m.pc.Sleep2Lock? && g.locks == map[]
    ensures Leads(c, m, g, 4, m', g) && m'.allFinished == m.allFinished
    ensures m'.pc == if g.sleeping == c.limit + 1 then SetEnded else Errors2Lock
  {
    hide MainNext, CompareNext, Leads;
    LockRoundTrip(SleepMutex, ByMain);
    MainTakes(c, m, g, SleepMutex);
    var o := MainNext(c, m, g);
    MainThinks(c, o.m, o.g);
    var p := MainNext(c, o.m, o.g);
    MainGives(c, p.m, p.g, SleepMutex);
    var q := MainNext(c, p.m, p.g);
    MainThinks(c, q.m, q.g);
    var r := MainNext(c, q.m, q.g);
    FourSteps(c, m, g, o, p, q, r);
    m' := r.m;
  }

  lemma TestsErrors(c: Config, m: Main, g: Globals) returns (m': Main, g': Globals)
    requires m.pc.Errors2Lock? && g.locks == map[]
    ensures Leads(c, m, g, 4, m', g') && g' == g.(allError := g.allError || g.errors == c.limit)
    ensures m'.pc == if g.errors == c.limit || m.allFinished then SetEnded else MainWaitLock
  {
    hide MainNext, CompareNext, Leads;
    LockRoundTrip(ErrorsLock, ByMain);
    MainTakes(c, m, g, ErrorsLock);
    var o := MainNext(c, m, g);
    MainThinks(c, o.m, o.g);
    var p := MainNext(c, o.m, o.g);
    MainGives(c, p.m, p.g, ErrorsLock);
    var q := MainNext(c, p.m, p.g);
    MainThinks(c, q.m, q.g);
    var r := MainNext(c, q.m, q.g);
    FourSteps(c, m, g, o, p, q, r);
    m', g' := r.m, r.g;
  }

  /** Main's test of the three disjuncts, by the counters. */
  lemma MainTests(c: Config, m: Main, g: Globals) returns (k: nat, m': Main, g': Globals)
    requires m.pc.Top? && !g.runEnded && g.locks == map[]
    ensures k <= 16 && Leads(c, m, g, k, m', g')
    ensures m'.pc == if g.sleeping == c.limit + 1 || g.errors == c.limit || (g.errors > 0 && g.sleeping == g.living + 1)
                     then SetEnded else MainWaitLock
    ensures g' == g.(allError := g.allError || (g.sleeping != c.limit + 1 && g.errors == c.limit))
  {
    hide MainNext, Leads;
    var m1 := ReadsErrors(c, m, g);
    var m2 := ReadsSleepers(c, m1, g);
    LeadsOn(c, m, g, 4, m1, g, 4, m2, g);
    var m3 := TestsSleepers(c, m2, g);
    LeadsOn(c, m, g, 8, m2, g, 4, m3, g);
    k, m', g' := 12, m3, g;
    if !m3.pc.SetEnded? {
      m', g' := TestsErrors(c, m3, g);
      LeadsOn(c, m, g, 12, m3, g, 4, m', g');
      k := 16;
    }
  }

  /** In every run: if main makes its test while no lock is held and nobody else steps, it ends the search
      exactly if every worker sleeps or has failed, and else waits; it notes an error for the exit code
      exactly if all have failed. With a negative limit it always waits, with limit 0 it always ends. */
  lemma MainDecides(c: Config, schedule: seq<Event>, s: State) returns (k: nat, m': Main, g': Globals)
    requires Run(c, schedule) == Some(s) && s.main.pc.Top? && !s.g.runEnded && s.g.locks == map[]
    ensures k <= 16 && Leads(c, s.main, s.g, k, m', g')
    ensures m'.pc == if c.limit >= 0 && forall t :: 0 <= t < |s.workers| ==> AtRest(s.workers[t].pc)
                     then SetEnded else MainWaitLock
    ensures g' == s.g.(allError := s.g.allError
                                || (c.limit > 0 && forall t :: 0 <= t < |s.workers| ==> s.workers[t].pc.Dead?))
  {
    hide Run, MainNext, Leads, Inv, AtRest;
    RunInv(c, schedule);
    if c.limit >= 0 {
      CountersSay(c, s);
    } else {
      NobodyCounted(c, s);
    }
    k, m', g' := MainTests(c, s.main, s.g);
  }

  // ---- When workers start ----

  predicate BeforeStart(pc: PC) {
    pc.Unborn? || pc.StartLock? || pc.StartTest? || pc.StartEnter? || pc.StartWait?
  }

  predicate BeforeGate(pc: PC) {
    || BeforeStart(pc) || pc.StartUnlock? || pc.LoopTest? || pc.Finished?
    || pc.GateLock? || pc.GateTest? || pc.GateEnter? || pc.GateWait?
  }

  /** Main has set `can_start`. */
  predicate Opened(pc: MainPC) {
    !Creating(pc) && !pc.OpenLock? && !pc.OpenSet?
  }

  ghost predicate Gated(s: State) {
    && (s.g.canStart <==> Opened(s.main.pc)) && (s.g.runEnded <==> s.main.pc.Report? || s.main.pc.Exited?)
    && (forall t :: 0 <= t < |s.workers| && !BeforeStart(s.workers[t].pc) ==> s.g.canStart)
    && (forall t :: 0 <= t < |s.workers| && !BeforeGate(s.workers[t].pc) ==> Started(s.main.pc))
  }

  /** A worker passes line 235 only if main has let it, and line 249 only if somebody is counted as asleep. */
  predicate GateStep(w: Worker, g: Globals, w': Worker, g': Globals) {
    && g'.canStart == g.canStart && g'.runEnded == g.runEnded
    && (!BeforeStart(w'.pc) ==> !BeforeStart(w.pc) || g.canStart)
    && (!BeforeGate(w'.pc) ==> !BeforeGate(w.pc) || g.sleeping != 0)
  }

  lemma GateOp(w: Worker, g: Globals, locks: LockTable)
    requires !Op(w.pc).NoLock?
    ensures GateStep(w, g, w.(pc := AfterOp(w.pc)), g.(locks := locks))
  {
  }

  lemma GateScan(c: Config, w: Worker, g: Globals, a: Answer, w': Worker, g': Globals)
    requires InScan(w.pc) && ScanNext(c, w, g, a) == Moved(w', g')
    ensures GateStep(w, g, w', g')
  {
    hide Contains;
  }

  lemma GateOther(w: Worker, g: Globals, w': Worker, g': Globals)
    requires FailingNext(w, g) == Moved(w', g') || NappingNext(w, g) == Moved(w', g')
          || TestNext(w, g) == Moved(w', g') || PlainNext(w, g) == Moved(w', g')
    ensures GateStep(w, g, w', g')
  {
  }

  lemma GateWorker(c: Config, w: Worker, g: Globals, t: nat, a: Answer, w': Worker, g': Globals)
    requires WorkerNext(c, w, g, t, a) == Moved(w', g')
    ensures GateStep(w, g, w', g')
  {
    hide ScanNext, FailingNext, NappingNext, TestNext, PlainNext, GateStep, AfterOp;
    if !Op(w.pc).NoLock? {
      GateOp(w, g, g'.locks);
    } else if InScan(w.pc) {
      GateScan(c, w, g, a, w', g');
    } else {
      GateOther(w, g, w', g');
    }
  }

  lemma OpensGate(c: Config, m: Main, g: Globals, m': Main, g': Globals)
    requires MainNext(c, m, g) == MainMoved(m', g') && (g.canStart <==> Opened(m.pc))
    requires g.runEnded <==> m.pc.Report? || m.pc.Exited?
    ensures (g'.canStart <==> Opened(m'.pc)) && (g.canStart ==> g'.canStart)
    ensures g'.runEnded <==> m'.pc.Report? || m'.pc.Exited?
  {
    hide CreateNext, OpenNext, CompareNext, DecideNext, EndNext, MainAfterOp;
    if !MainOp(m.pc).NoLock? {
      OpensByOp(m.pc);
    } else if Creating(m.pc) || Opening(m.pc) {
      OpensByStart(c, m, g, m', g');
    } else {
      OpensLater(c, m, g, m', g');
    }
  }

  lemma OpensByOp(pc: MainPC)
    requires !MainOp(pc).NoLock?
    ensures Opened(MainAfterOp(pc)) <==> Opened(pc)
    ensures !Ending(pc) && !Ending(MainAfterOp(pc))
  {
  }

  lemma OpensByStart(c: Config, m: Main, g: Globals, m': Main, g': Globals)
    requires CreateNext(c, m, g) == MainMoved(m', g') || OpenNext(m, g) == MainMoved(m', g')
    requires g.canStart <==> Opened(m.pc)
    ensures (g'.canStart <==> Opened(m'.pc)) && (g.canStart ==> g'.canStart)
    ensures g'.runEnded == g.runEnded && !Ending(m.pc) && !Ending(m'.pc)
  {
  }

  lemma OpensLater(c: Config, m: Main, g: Globals, m': Main, g': Globals)
    requires CompareNext(m, g) == MainMoved(m', g') || DecideNext(c, m, g) == MainMoved(m', g')
          || EndNext(m, g) == MainMoved(m', g')
    requires g.runEnded <==> m.pc.Report? || m.pc.Exited?
    ensures g'.runEnded <==> m'.pc.Report? || m'.pc.Exited?
    ensures g'.canStart == g.canStart && Opened(m.pc) && Opened(m'.pc)
  {
  }

  lemma GateIsShut(s: State)
    requires Gated(s) && Counted(s) && !Started(s.main.pc)
    ensures s.g.sleeping == 0
  {
    forall t | 0 <= t < |s.workers|
      ensures Score(Naps, s.workers[t]) == 0
    {
      assert BeforeGate(s.workers[t].pc);
    }
    SumZero(Naps, s.workers);
  }

  lemma GatedNext(c: Config, s: State, e: Event)
    requires Inv(c, s) && Gated(s) && Next(c, s, e).Some?
    ensures Gated(Next(c, s, e).value)
  {
    hide WorkerNext, MainNext, Inv, Gated, GateStep;
    match e
    case MainStep =>
      var o := MainNext(c, s.main, s.g);
      GatedMain(c, s, o.m, o.g);
    case WorkerStep(t, a) =>
      var o := WorkerNext(c, s.workers[t], s.g, t, a);
      GateWorker(c, s.workers[t], s.g, t, a, o.w, o.g);
      assert Counted(s) by {
        CountedInv(c, s);
      }
      if !Started(s.main.pc) {
        GateIsShut(s);
      }
      GatedWorker(s, t, o.w, o.g);
  }

  lemma CountedInv(c: Config, s: State)
    requires Inv(c, s)
    ensures Counted(s)
  {
    hide Locked, Shape, NoLostUpdate, NotStranded, Verdicts, Counted;
  }

  lemma GatedWorker(s: State, t: nat, w': Worker, g': Globals)
    requires Gated(s) && t < |s.workers| && GateStep(s.workers[t], s.g, w', g')
    requires !Started(s.main.pc) ==> s.g.sleeping == 0
    ensures Gated(State(s.workers[t := w'], s.main, g'))
  {
    hide BeforeStart, BeforeGate, Opened, Started;
  }

  lemma GatedMain(c: Config, s: State, m': Main, g': Globals)
    requires Inv(c, s) && Gated(s) && MainNext(c, s.main, s.g) == MainMoved(m', g')
    ensures Gated(State(Spawn(s.workers, s.main), m', g'))
  {
    hide MainNext, Inv, Opened, Started;
    OpensGate(c, s.main, s.g, m', g');
    StaysStarted(c, s, m', g');
  }

  lemma StaysStarted(c: Config, s: State, m': Main, g': Globals)
    requires Inv(c, s) && MainNext(c, s.main, s.g) == MainMoved(m', g')
    ensures Started(s.main.pc) ==> Started(m'.pc)
  {
    hide MainNext, Locked, NotStranded, Counted, Quiet, MainShapeEffect, MainCountEffect, Started;
    MainEffect(c, s.main, s.g, m', g');
  }

  lemma {:induction false} RunGated(c: Config, schedule: seq<Event>)
    requires Run(c, schedule).Some?
    ensures Gated(Run(c, schedule).value)
  {
    hide Inv, Next, Gated;
    if schedule == [] {
      InitGated(c);
    } else {
      var n := |schedule| - 1;
      RunInv(c, schedule[..n]);
      RunGated(c, schedule[..n]);
      GatedNext(c, Run(c, schedule[..n]).value, schedule[n]);
    }
  }

  lemma InitGated(c: Config)
    ensures Gated(Init(c))
  {
  }

  /** In every run no worker leaves its start before all have been created and let in, and none takes from
      the queue before main has counted itself. */
  lemma NobodyStartsEarly(c: Config, schedule: seq<Event>, s: State, t: nat)
    requires Run(c, schedule) == Some(s) && t < |s.workers|
    ensures !BeforeStart(s.workers[t].pc) ==>
      s.g.canStart && s.main.created == c.Workers() && forall u :: 0 <= u < |s.workers| ==> !s.workers[u].pc.Unborn?
    ensures s.workers[t].pc.Take? || Holding(s.workers[t]) || InSleepPath(s.workers[t]) ==>
      Started(s.main.pc) && 1 <= s.g.sleeping
  {
    hide Run, Inv, Gated, Started, BeforeStart;
    RunInv(c, schedule);
    RunGated(c, schedule);
    CountedInv(c, s);
    if !BeforeStart(s.workers[t].pc) {
      AllAreBorn(c, s, t);
    }
    if s.workers[t].pc.Take? || Holding(s.workers[t]) || InSleepPath(s.workers[t]) {
      BehindGate(s.workers[t]);
      GateIsOpen(s, t);
    }
  }

  lemma BehindGate(w: Worker)
    requires w.pc.Take? || Holding(w) || InSleepPath(w)
    ensures !BeforeGate(w.pc)
  {
  }

  lemma AllAreBorn(c: Config, s: State, t: nat)
    requires Inv(c, s) && Gated(s) && t < |s.workers| && !BeforeStart(s.workers[t].pc)
    ensures s.g.canStart && s.main.created == c.Workers()
    ensures forall u :: 0 <= u < |s.workers| ==> !s.workers[u].pc.Unborn?
  {
    hide Locked, NoLostUpdate, NotStranded, Verdicts, Counted, BeforeStart, BeforeGate, WorkerShape;
  }

  lemma GateIsOpen(s: State, t: nat)
    requires Counted(s) && Gated(s) && t < |s.workers| && !BeforeGate(s.workers[t].pc)
    ensures Started(s.main.pc) && 1 <= s.g.sleeping
  {
    hide Started, BeforeGate, BeforeStart;
  }

  // ---- That workers stop ----

  /** How many more steps a worker can take after the end. */
  function Left(pc: PC): nat {
    match pc
    case Finished | Dead | Unborn => 0
    case LoopTest | FailUnlock => 1
    case StartUnlock | LivingStore | QueueUnlock => 2
    case StartTest | LivingLoad | WakeUnlock => 3
    case StartLock | StartWait | FailStore | WakeStore => 4
    case StartEnter | FailLoad | WakeLoad => 5
    case FailLock | WakeLock => 6
    case CloseDir | Asleep => 7
    case ScanTest | WaitEnter => 8
    case OpenDir | PrintPath | YieldUnlock | WaitLock => 9
    case CountUnlock | YieldLock | NapUnlock => 10
    case CountStore | CastUnlock | NapStore => 11
    case CountLoad | CastLock | NapLoad => 12
    case CountLock | PutUnlock | NapLock => 13
    case Put | TakeTest => 14
    case PutLock | TakeUnlock => 15
    case ReadEntry | Take => 16
    case TakeLock => 17
    case GateUnlock => 18
    case GateTest => 19
    case GateLock | GateWait => 20
    case GateEnter => 21
  }

  /** The run has ended, and nothing holds a worker at lines 235 and 249. */
  predicate Over(g: Globals) {
    g.runEnded && g.canStart && g.sleeping != 0
  }

  lemma LeftByOp(pc: PC)
    requires !Op(pc).NoLock?
    ensures Left(AfterOp(pc)) < Left(pc)
  {
  }

  lemma LeftByScan(c: Config, w: Worker, g: Globals, a: Answer, w': Worker, g': Globals)
    requires g.runEnded && InScan(w.pc) && ScanNext(c, w, g, a) == Moved(w', g')
    ensures Left(w'.pc) < Left(w.pc)
  {
    hide Contains;
  }

  lemma LeftByOther(w: Worker, g: Globals, w': Worker, g': Globals)
    requires FailingNext(w, g) == Moved(w', g') || NappingNext(w, g) == Moved(w', g')
          || PlainNext(w, g) == Moved(w', g')
    ensures Left(w'.pc) < Left(w.pc)
  {
  }

  lemma LeftByTest(w: Worker, g: Globals, w': Worker, g': Globals)
    requires Over(g) && TestNext(w, g) == Moved(w', g')
    ensures Left(w'.pc) < Left(w.pc)
  {
  }

  lemma LeftLess(c: Config, w: Worker, g: Globals, t: nat, a: Answer, w': Worker, g': Globals)
    requires Over(g) && WorkerNext(c, w, g, t, a) == Moved(w', g')
    ensures Left(w'.pc) < Left(w.pc)
  {
    hide ScanNext, FailingNext, NappingNext, TestNext, PlainNext, AfterOp, Left;
    if !Op(w.pc).NoLock? {
      LeftByOp(w.pc);
    } else if InScan(w.pc) {
      LeftByScan(c, w, g, a, w', g');
    } else if InTest(w.pc) && !InFailing(w.pc) && !InNapping(w.pc) {
      LeftByTest(w, g, w', g');
    } else {
      LeftByOther(w, g, w', g');
    }
  }

  /** `run_ended` is set exactly when main has left its wait loop and line 493 is done; then nothing holds a
      worker at lines 235 and 249. */
  lemma EndedIs(c: Config, schedule: seq<Event>, s: State)
    requires Run(c, schedule) == Some(s)
    ensures s.g.runEnded <==> s.main.pc.Report? || s.main.pc.Exited?
    ensures s.g.runEnded ==> Over(s.g)
  {
    hide Run, Locked, Shape, NoLostUpdate, NotStranded, Verdicts;
    RunInv(c, schedule);
    RunGated(c, schedule);
  }

  /** The steps of one worker in a schedule. */
  function StepsOf(schedule: seq<Event>, t: nat): nat {
    if schedule == [] then 0 else
      var n := |schedule| - 1;
      StepsOf(schedule[..n], t) + (if schedule[n].WorkerStep? && schedule[n].t == t then 1 else 0)
  }

  lemma OneStepLess(c: Config, s: State, e: Event, t: nat)
    requires Over(s.g) && t < |s.workers| && Next(c, s, e).Some?
    requires s.main.pc.Report? || s.main.pc.Exited?
    ensures var s' := Next(c, s, e).value;
      && s'.g.runEnded && |s'.workers| == |s.workers| && (s'.main.pc.Report? || s'.main.pc.Exited?)
      && Left(s'.workers[t].pc) + (if e.WorkerStep? && e.t == t then 1 else 0) <= Left(s.workers[t].pc)
  {
    hide WorkerNext, MainNext, Left;
    match e
    case MainStep =>
      ReportsOnly(c, s.main, s.g);
    case WorkerStep(u, a) =>
      var o := WorkerNext(c, s.workers[u], s.g, u, a);
      LeftLess(c, s.workers[u], s.g, u, a, o.w, o.g);
      EndedStays(c, s.workers[u], s.g, u, a);
  }

  lemma ReportsOnly(c: Config, m: Main, g: Globals)
    requires MainNext(c, m, g).MainMoved? && (m.pc.Report? || m.pc.Exited?)
    ensures MainNext(c, m, g).m.pc.Exited? && MainNext(c, m, g).g == g
  {
    hide CreateNext, OpenNext, CompareNext, DecideNext;
  }

  lemma EndedStays(c: Config, w: Worker, g: Globals, t: nat, a: Answer)
    requires WorkerNext(c, w, g, t, a).Moved?
    ensures WorkerNext(c, w, g, t, a).g.runEnded == g.runEnded
  {
    hide AfterOp, AfterRead;
  }

  /** Once main has passed line 493 every worker takes at most 21 more steps, whatever the others do. */
  lemma {:induction false} WorkersStop(c: Config, schedule: seq<Event>, s: State, more: seq<Event>, s': State, t: nat)
    requires Run(c, schedule) == Some(s) && (s.main.pc.Report? || s.main.pc.Exited?) && t < |s.workers|
    requires Run(c, schedule + more) == Some(s')
    ensures StepsOf(more, t) <= 21
    ensures (s'.main.pc.Report? || s'.main.pc.Exited?) && |s'.workers| == |s.workers|
    ensures Left(s'.workers[t].pc) + StepsOf(more, t) <= Left(s.workers[t].pc)
    decreases |more|
  {
    hide Next, Left, Over;
    LeftIsSmall(s.workers[t].pc);
    if more == [] {
      assert schedule + more == schedule;
    } else {
      var n := |more| - 1;
      assert (schedule + more)[..|schedule + more| - 1] == schedule + more[..n];
      var before := Run(c, schedule + more[..n]).value;
      WorkersStop(c, schedule, s, more[..n], before, t);
      EndedIs(c, schedule + more[..n], before);
      OneStepLess(c, before, more[n], t);
    }
  }

  lemma LeftIsSmall(pc: PC)
    ensures Left(pc) <= 21
  {
  }
}
