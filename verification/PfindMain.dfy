/** The steps of the main thread keep the invariant. */
module PfindMain {
  import opened Basics
  import opened FileTree
  import opened Pfind
  import opened PfindInvariant

  // ---- One main step, seen from the main thread alone ----

  ghost predicate MainLockEffect(m: Main, g: Globals, m': Main, g': Globals) {
    match MainOp(m.pc)
    case NoLock => g'.locks == g.locks && forall l :: MainHolds(m'.pc, l) <==> MainHolds(m.pc, l)
    case TakeOf(k) =>
      && k !in g.locks && g'.locks == g.locks[k := ByMain]
      && forall l :: MainHolds(m'.pc, l) <==> MainHolds(m.pc, l) || l == k
    case GiveOf(k) =>
      && g'.locks == g.locks - {k} && MainHolds(m.pc, k)
      && forall l :: MainHolds(m'.pc, l) <==> MainHolds(m.pc, l) && l != k
  }

  predicate MainCountEffect(m: Main, g: Globals, m': Main, g': Globals) {
    && g'.sleeping - g.sleeping == One(Started(m'.pc)) - One(Started(m.pc))
    && g'.living - g.living == Births(m') - Births(m)
    && g'.errors == g.errors && g'.counter == g.counter
    && (g'.sleeping != g.sleeping ==> MainHolds(m.pc, SleepMutex))
    && (g'.living != g.living ==> MainHolds(m.pc, ErrorsLock))
    && MainFreshLoad(m', g')
  }

  predicate MainFreshLoad(m: Main, g: Globals) {
    (m.pc.BirthStore? ==> m.tmp == g.living) && (m.pc.OneStore? ==> m.tmp == g.sleeping)
  }

  /** The part of `Shape` that is about the main thread. */
  predicate MainShape(c: Config, m: Main) {
    && m.created <= c.Workers()
    && (m.pc.EnqueueRoot? ==> m.created == 0)
    && (m.pc.Create? ==> m.created < c.limit)
    && ((m.pc.BirthLock? || m.pc.BirthLoad? || m.pc.BirthStore? || m.pc.BirthUnlock?) ==> 0 < m.created)
    && (!Creating(m.pc) ==> m.created == c.Workers())
  }

  predicate MainShapeEffect(c: Config, m: Main, g: Globals, m': Main, g': Globals) {
    && MainShape(c, m')
    && !m'.pc.EnqueueRoot?
    && m'.created == m.created + One(m.pc.Create?)
    && g'.queue == (if m.pc.EnqueueRoot? then g.queue + [c.root] else g.queue)
    && g'.output == g.output && g'.visited == g.visited
    && (g.runEnded ==> g'.runEnded)
  }

  /** How the verdicts of `check_threads_running` come about. */
  predicate VerdictEffect(c: Config, m: Main, g: Globals, m': Main, g': Globals) {
    && (m'.allAsleep ==> m.allAsleep || (Started(m.pc) && !g.runEnded && g.sleeping == c.limit + 1))
    && (m'.errored > 0 ==> m.errored > 0 || g.errors > 0)
    && (m'.allErrors ==> m.allErrors || g.errors == c.limit)
    && (m'.allFinished ==> m.allFinished || m.errored > 0)
    && (Ending(m'.pc) ==> Ending(m.pc) || m.allAsleep || m.allErrors || m.allFinished || g.runEnded)
    && (g'.runEnded ==> (g.runEnded || Ending(m.pc)) && (m'.pc.Report? || m'.pc.Exited?))
    && (Started(m.pc) ==> Started(m'.pc))
  }

  lemma MainTakeHolds(pc: MainPC, l: Lock)
    requires MainOp(pc).TakeOf?
    ensures MainHolds(MainAfterOp(pc), l) <==> MainHolds(pc, l) || l == MainOp(pc).l
  {
  }

  lemma MainGiveHolds(pc: MainPC, l: Lock)
    requires MainOp(pc).GiveOf?
    ensures MainHolds(pc, MainOp(pc).l) && (MainHolds(MainAfterOp(pc), l) <==> MainHolds(pc, l) && l != MainOp(pc).l)
  {
  }

  lemma CreateLocks(c: Config, m: Main, g: Globals, m': Main, g': Globals, l: Lock)
    requires CreateNext(c, m, g) == MainMoved(m', g')
    ensures g'.locks == g.locks && (MainHolds(m'.pc, l) <==> MainHolds(m.pc, l))
  {
  }

  lemma OpenLocks(c: Config, m: Main, g: Globals, m': Main, g': Globals, l: Lock)
    requires OpenNext(m, g) == MainMoved(m', g')
    ensures g'.locks == g.locks && (MainHolds(m'.pc, l) <==> MainHolds(m.pc, l))
  {
  }

  lemma CompareLocks(c: Config, m: Main, g: Globals, m': Main, g': Globals, l: Lock)
    requires CompareNext(m, g) == MainMoved(m', g')
    ensures g'.locks == g.locks && (MainHolds(m'.pc, l) <==> MainHolds(m.pc, l))
  {
  }

  lemma DecideLocks(c: Config, m: Main, g: Globals, m': Main, g': Globals, l: Lock)
    requires DecideNext(c, m, g) == MainMoved(m', g')
    ensures g'.locks == g.locks && (MainHolds(m'.pc, l) <==> MainHolds(m.pc, l))
  {
  }

  lemma EndLocks(c: Config, m: Main, g: Globals, m': Main, g': Globals, l: Lock)
    requires EndNext(m, g) == MainMoved(m', g')
    ensures g'.locks == g.locks && (MainHolds(m'.pc, l) <==> MainHolds(m.pc, l))
  {
  }

  lemma MainLocks(c: Config, m: Main, g: Globals, m': Main, g': Globals)
    requires MainNext(c, m, g) == MainMoved(m', g')
    ensures MainLockEffect(m, g, m', g')
  {
    hide CreateNext, OpenNext, CompareNext, EndNext, DecideNext;
    if MainOp(m.pc).TakeOf? {
      forall l {
        MainTakeHolds(m.pc, l);
      }
    } else if MainOp(m.pc).GiveOf? {
      forall l {
        MainGiveHolds(m.pc, l);
      }
    } else if Creating(m.pc) {
      CreateLocks(c, m, g, m', g', StartMutex);
      forall l {
        CreateLocks(c, m, g, m', g', l);
      }
    } else if Opening(m.pc) {
      OpenLocks(c, m, g, m', g', StartMutex);
      forall l {
        OpenLocks(c, m, g, m', g', l);
      }
    } else if Comparing(m.pc) {
      CompareLocks(c, m, g, m', g', StartMutex);
      forall l {
        CompareLocks(c, m, g, m', g', l);
      }
    } else if Ending(m.pc) {
      EndLocks(c, m, g, m', g', StartMutex);
      forall l {
        EndLocks(c, m, g, m', g', l);
      }
    } else {
      DecideLocks(c, m, g, m', g', StartMutex);
      forall l {
        DecideLocks(c, m, g, m', g', l);
      }
    }
  }

  lemma MainOpEffect(c: Config, m: Main, g: Globals, locks: LockTable)
    requires !MainOp(m.pc).NoLock? && MainShape(c, m) && MainFreshLoad(m, g)
    requires g.runEnded ==> m.pc.Report? || m.pc.Exited?
    ensures MainCountEffect(m, g, m.(pc := MainAfterOp(m.pc)), g.(locks := locks))
    ensures MainShapeEffect(c, m, g, m.(pc := MainAfterOp(m.pc)), g.(locks := locks))
    ensures VerdictEffect(c, m, g, m.(pc := MainAfterOp(m.pc)), g.(locks := locks))
  {
  }

  lemma CreateCounts(c: Config, m: Main, g: Globals, m': Main, g': Globals)
    requires MainFreshLoad(m, g) && CreateNext(c, m, g) == MainMoved(m', g')
    ensures MainCountEffect(m, g, m', g')
  {
  }

  lemma CreateShape(c: Config, m: Main, g: Globals, m': Main, g': Globals)
    requires MainShape(c, m) && CreateNext(c, m, g) == MainMoved(m', g')
    ensures MainShapeEffect(c, m, g, m', g')
  {
  }

  lemma CreateVerdict(c: Config, m: Main, g: Globals, m': Main, g': Globals)
    requires CreateNext(c, m, g) == MainMoved(m', g')
    requires g.runEnded ==> m.pc.Report? || m.pc.Exited?
    ensures VerdictEffect(c, m, g, m', g')
  {
  }

  lemma OpenCounts(c: Config, m: Main, g: Globals, m': Main, g': Globals)
    requires MainFreshLoad(m, g) && OpenNext(m, g) == MainMoved(m', g')
    ensures MainCountEffect(m, g, m', g')
  {
  }

  lemma OpenShape(c: Config, m: Main, g: Globals, m': Main, g': Globals)
    requires MainShape(c, m) && OpenNext(m, g) == MainMoved(m', g')
    ensures MainShapeEffect(c, m, g, m', g')
  {
  }

  lemma OpenVerdict(c: Config, m: Main, g: Globals, m': Main, g': Globals)
    requires OpenNext(m, g) == MainMoved(m', g')
    requires g.runEnded ==> m.pc.Report? || m.pc.Exited?
    ensures VerdictEffect(c, m, g, m', g')
  {
  }

  lemma CompareCounts(c: Config, m: Main, g: Globals, m': Main, g': Globals)
    requires MainFreshLoad(m, g) && CompareNext(m, g) == MainMoved(m', g')
    ensures MainCountEffect(m, g, m', g')
  {
  }

  lemma CompareShape(c: Config, m: Main, g: Globals, m': Main, g': Globals)
    requires MainShape(c, m) && CompareNext(m, g) == MainMoved(m', g')
    ensures MainShapeEffect(c, m, g, m', g')
  {
  }

  lemma CompareVerdict(c: Config, m: Main, g: Globals, m': Main, g': Globals)
    requires CompareNext(m, g) == MainMoved(m', g')
    requires g.runEnded ==> m.pc.Report? || m.pc.Exited?
    ensures VerdictEffect(c, m, g, m', g')
  {
  }

  lemma DecideCounts(c: Config, m: Main, g: Globals, m': Main, g': Globals)
    requires MainFreshLoad(m, g) && DecideNext(c, m, g) == MainMoved(m', g')
    ensures MainCountEffect(m, g, m', g')
  {
  }

  lemma DecideShape(c: Config, m: Main, g: Globals, m': Main, g': Globals)
    requires MainShape(c, m) && DecideNext(c, m, g) == MainMoved(m', g')
    ensures MainShapeEffect(c, m, g, m', g')
  {
  }

  lemma DecideVerdict(c: Config, m: Main, g: Globals, m': Main, g': Globals)
    requires DecideNext(c, m, g) == MainMoved(m', g')
    requires g.runEnded ==> m.pc.Report? || m.pc.Exited?
    ensures VerdictEffect(c, m, g, m', g')
  {
  }

  lemma EndCounts(c: Config, m: Main, g: Globals, m': Main, g': Globals)
    requires MainFreshLoad(m, g) && EndNext(m, g) == MainMoved(m', g')
    ensures MainCountEffect(m, g, m', g')
  {
  }

  lemma EndShape(c: Config, m: Main, g: Globals, m': Main, g': Globals)
    requires MainShape(c, m) && EndNext(m, g) == MainMoved(m', g')
    ensures MainShapeEffect(c, m, g, m', g')
  {
  }

  lemma EndVerdict(c: Config, m: Main, g: Globals, m': Main, g': Globals)
    requires EndNext(m, g) == MainMoved(m', g')
    requires g.runEnded ==> m.pc.Report? || m.pc.Exited?
    ensures VerdictEffect(c, m, g, m', g')
  {
  }

  lemma MainEffect(c: Config, m: Main, g: Globals, m': Main, g': Globals)
    requires MainShape(c, m) && MainFreshLoad(m, g) && MainNext(c, m, g) == MainMoved(m', g')
    requires g.runEnded ==> m.pc.Report? || m.pc.Exited?
    ensures MainCountEffect(m, g, m', g')
    ensures MainShapeEffect(c, m, g, m', g')
    ensures VerdictEffect(c, m, g, m', g')
  {
    hide CreateNext, OpenNext, CompareNext, EndNext, DecideNext;
    hide MainCountEffect, MainShapeEffect, VerdictEffect, MainShape, MainFreshLoad;
    if !MainOp(m.pc).NoLock? {
      MainOpEffect(c, m, g, g'.locks);
    } else if Creating(m.pc) {
      CreateCounts(c, m, g, m', g');
      CreateShape(c, m, g, m', g');
      CreateVerdict(c, m, g, m', g');
    } else if Opening(m.pc) {
      OpenCounts(c, m, g, m', g');
      OpenShape(c, m, g, m', g');
      OpenVerdict(c, m, g, m', g');
    } else if Comparing(m.pc) {
      CompareCounts(c, m, g, m', g');
      CompareShape(c, m, g, m', g');
      CompareVerdict(c, m, g, m', g');
    } else if Ending(m.pc) {
      EndCounts(c, m, g, m', g');
      EndShape(c, m, g, m', g');
      EndVerdict(c, m, g, m', g');
    } else {
      DecideCounts(c, m, g, m', g');
      DecideShape(c, m, g, m', g');
      DecideVerdict(c, m, g, m', g');
    }
  }

  // ---- From the main thread to the whole state ----

  lemma SpawnScore(k: Tally, w: Worker)
    requires w.pc.Unborn?
    ensures Score(k, w) == Score(k, w.(pc := StartLock)) == 0
  {
  }

  /** `pthread_create` turns an unborn worker into one that counts nowhere yet. */
  lemma SpawnNeutral(c: Config, s: State, k: Tally)
    requires Shape(c, s)
    ensures |Spawn(s.workers, s.main)| == |s.workers|
    ensures Sum(k, Spawn(s.workers, s.main)) == Sum(k, s.workers)
  {
    hide Score, WorkerShape;
    var ws := Spawn(s.workers, s.main);
    if ws != s.workers {
      SpawnScore(k, s.workers[s.main.created]);
      SumUpdate(k, s.workers, s.main.created, ws[s.main.created]);
    }
  }

  lemma SpawnOnly(c: Config, s: State, t: nat)
    requires Shape(c, s) && t < |s.workers|
    ensures |Spawn(s.workers, s.main)| == |s.workers|
    ensures Spawn(s.workers, s.main)[t] == s.workers[t]
         || (s.workers[t].pc.Unborn? && Spawn(s.workers, s.main)[t] == s.workers[t].(pc := StartLock))
  {
  }

  lemma MainLockedKept(c: Config, s: State, m': Main, g': Globals)
    requires Locked(s) && Shape(c, s) && MainLockEffect(s.main, s.g, m', g')
    ensures Locked(State(Spawn(s.workers, s.main), m', g'))
  {
    hide WorkerShape, Creating;
    var s' := State(Spawn(s.workers, s.main), m', g');
    forall l: Lock, u: nat
      ensures OwnedBy(s'.g, l, ByWorker(u)) <==> u < |s'.workers| && Holds(s'.workers[u].pc, l)
    {
      if u < |s.workers| {
        SpawnOnly(c, s, u);
      }
      assert OwnedBy(s.g, l, ByWorker(u)) <==> u < |s.workers| && Holds(s.workers[u].pc, l);
      assert OwnedBy(s.g, l, ByMain) <==> MainHolds(s.main.pc, l);
    }
    forall l: Lock
      ensures OwnedBy(s'.g, l, ByMain) <==> MainHolds(s'.main.pc, l)
    {
      assert OwnedBy(s.g, l, ByMain) <==> MainHolds(s.main.pc, l);
    }
  }

  lemma MainNoLostUpdateKept(c: Config, s: State, m': Main, g': Globals)
    requires Locked(s) && Shape(c, s) && NoLostUpdate(s) && MainCountEffect(s.main, s.g, m', g')
    ensures NoLostUpdate(State(Spawn(s.workers, s.main), m', g'))
  {
    var s' := State(Spawn(s.workers, s.main), m', g');
    forall u | 0 <= u < |s'.workers|
      ensures FreshLoad(s'.workers[u], s'.g)
    {
      SpawnOnly(c, s, u);
      assert FreshLoad(s.workers[u], s.g);
      StoreHolds(s.workers[u].pc);
      ExclusiveMain(s, u);
    }
  }

  lemma MainShapeKept(c: Config, s: State, m': Main, g': Globals)
    requires Shape(c, s) && MainShapeEffect(c, s.main, s.g, m', g')
    ensures Shape(c, State(Spawn(s.workers, s.main), m', g'))
  {
  }

  lemma MainCountedKept(c: Config, s: State, m': Main, g': Globals)
    requires Shape(c, s) && Counted(s) && MainCountEffect(s.main, s.g, m', g')
    ensures Counted(State(Spawn(s.workers, s.main), m', g'))
  {
    SpawnNeutral(c, s, Naps);
    SpawnNeutral(c, s, Failed);
    SpawnNeutral(c, s, Gone);
  }

  lemma MainNotStrandedKept(c: Config, s: State, m': Main, g': Globals)
    requires Shape(c, s) && NotStranded(c, s)
    requires MainCountEffect(s.main, s.g, m', g') && MainShapeEffect(c, s.main, s.g, m', g')
    ensures NotStranded(c, State(Spawn(s.workers, s.main), m', g'))
  {
    SpawnNeutral(c, s, Idle);
    if s.main.pc.EnqueueRoot? {
      SumZero(Idle, s.workers);
    }
  }

  lemma MainQuietKept(c: Config, s: State, m': Main, g': Globals)
    requires Shape(c, s) && Quiet(c, s)
    requires MainCountEffect(s.main, s.g, m', g') && MainShapeEffect(c, s.main, s.g, m', g')
    ensures Quiet(c, State(Spawn(s.workers, s.main), m', g'))
  {
    forall t | 0 <= t < |s.workers|
      ensures Calm(Spawn(s.workers, s.main)[t])
    {
      SpawnOnly(c, s, t);
    }
  }

  /** The all-asleep test can only succeed when nothing is left to do and nobody has failed. */
  lemma AsleepIsQuiet(c: Config, s: State)
    requires Counted(s) && NotStranded(c, s) && |s.workers| == c.Workers()
    requires Started(s.main.pc) && !s.g.runEnded && s.g.sleeping == c.limit + 1
    ensures Quiet(c, s)
  {
    if c.limit > 0 {
      AllNapping(s.workers);
    }
  }

  /** With no workers there is nobody who could be at work. */
  lemma NoWorkersQuiet(c: Config, s: State)
    requires Inv(c, s) && c.Workers() == 0 && s.main.pc != EnqueueRoot
    ensures Quiet(c, s)
  {
  }

  lemma MainVerdictsKept(c: Config, s: State, m': Main, g': Globals)
    requires Inv(c, s)
    requires MainCountEffect(s.main, s.g, m', g') && MainShapeEffect(c, s.main, s.g, m', g')
    requires VerdictEffect(c, s.main, s.g, m', g') && s.main.pc != EnqueueRoot
    ensures Verdicts(c, State(Spawn(s.workers, s.main), m', g'))
  {
    if Started(s.main.pc) && !s.g.runEnded && s.g.sleeping == c.limit + 1 {
      AsleepIsQuiet(c, s);
    }
    if c.Workers() == 0 {
      NoWorkersQuiet(c, s);
    }
    if Quiet(c, s) {
      MainQuietKept(c, s, m', g');
    }
  }

  lemma FirstStepVerdicts(c: Config, s: State, m': Main, g': Globals)
    requires Inv(c, s) && s.main.pc == EnqueueRoot && MainNext(c, s.main, s.g) == MainMoved(m', g')
    ensures Verdicts(c, State(Spawn(s.workers, s.main), m', g'))
  {
  }

  lemma MainStepInv(c: Config, s: State, m': Main, g': Globals)
    requires Inv(c, s) && MainNext(c, s.main, s.g) == MainMoved(m', g')
    ensures Inv(c, State(Spawn(s.workers, s.main), m', g'))
  {
    hide MainNext, MainLockEffect, VerdictEffect;
    MainEffect(c, s.main, s.g, m', g');
    MainLocks(c, s.main, s.g, m', g');
    MainLockedKept(c, s, m', g');
    MainShapeKept(c, s, m', g');
    MainNoLostUpdateKept(c, s, m', g');
    MainCountedKept(c, s, m', g');
    MainNotStrandedKept(c, s, m', g');
    if s.main.pc == EnqueueRoot {
      FirstStepVerdicts(c, s, m', g');
    } else {
      MainVerdictsKept(c, s, m', g');
    }
  }
}
