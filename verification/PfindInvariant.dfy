/** What every step of the parallel search keeps. */
module PfindInvariant {
  import opened Basics
  import opened FileTree
  import opened Pfind

  // ---- Locks ----

  /** The critical section a worker is in. `InBoth` is the decrement of line 298. */
  datatype Section = Outside | InStart | InSleep | InQueue | InBoth | InCounter | InErrors

  function SectionOf(pc: PC): Section {
    if pc.StartTest? || pc.StartEnter? || pc.StartUnlock? then InStart
    else if pc.GateTest? || pc.GateEnter? || pc.GateUnlock? || pc.NapLoad? || pc.NapStore? || pc.NapUnlock? then InSleep
    else if pc.WakeLoad? || pc.WakeStore? || pc.WakeUnlock? then InBoth
    else if pc.Take? || pc.TakeUnlock? || pc.Put? || pc.PutUnlock? || pc.CastUnlock? || pc.YieldUnlock?
            || pc.WaitEnter? || pc.WakeLock? || pc.QueueUnlock? then InQueue
    else if pc.CountLoad? || pc.CountStore? || pc.CountUnlock? then InCounter
    else if pc.FailLoad? || pc.FailStore? || pc.LivingLoad? || pc.LivingStore? || pc.FailUnlock? then InErrors
    else Outside
  }

  predicate Owns(k: Section, l: Lock) {
    match l
    case StartMutex => k.InStart?
    case SleepMutex => k.InSleep? || k.InBoth?
    case QueueMutex => k.InQueue? || k.InBoth?
    case CounterLock => k.InCounter?
    case ErrorsLock => k.InErrors?
  }

  /** The locks a worker owns at each point of its code. */
  predicate Holds(pc: PC, l: Lock) {
    Owns(SectionOf(pc), l)
  }

  predicate MainHolds(pc: MainPC, l: Lock) {
    match l
    case ErrorsLock => pc.BirthLoad? || pc.BirthStore? || pc.BirthUnlock? || pc.Errors1Read? || pc.Errors1Unlock?
      || pc.Errors2Read? || pc.Errors2Unlock?
    case StartMutex => pc.OpenSet? || pc.OpenUnlock?
    case SleepMutex => pc.OneLoad? || pc.OneStore? || pc.OneUnlock? || pc.Sleep1Read? || pc.Sleep1Unlock?
      || pc.Sleep2Read? || pc.Sleep2Unlock? || pc.MainWaitEnter? || pc.MainWaitUnlock?
    case _ => false
  }

  /** The lock table agrees with where the threads are, so no two threads hold the same lock. */
  ghost predicate Locked(s: State) {
    && (forall l: Lock, t: nat :: OwnedBy(s.g, l, ByWorker(t)) <==> t < |s.workers| && Holds(s.workers[t].pc, l))
    && (forall l: Lock :: OwnedBy(s.g, l, ByMain) <==> MainHolds(s.main.pc, l))
  }

  predicate OwnedBy(g: Globals, l: Lock, o: Owner) {
    l in g.locks && g.locks[l] == o
  }

  // ---- Sums over the workers ----

  datatype Tally =
    | Naps                                    // counted in sleeping_threads_available
    | Failed                                  // counted in thread_errors_cntr
    | Gone                                    // no longer counted in living_threads
    | Idle                                    // will not take from the queue before it sleeps, or never

  predicate Napping(w: Worker) {
    || w.pc.NapUnlock? || w.pc.WaitLock? || w.pc.WaitEnter? || w.pc.Asleep?
    || w.pc.WakeLock? || w.pc.WakeLoad? || w.pc.WakeStore?
  }

  /** Between getting NULL from `deQueue` and the decrement at line 298. */
  predicate InSleepPath(w: Worker) {
    || Napping(w)
    || (w.pc.NapLock? || w.pc.NapLoad? || w.pc.NapStore?)
    || ((w.pc.TakeUnlock? || w.pc.TakeTest?) && w.curr.None?)
  }

  predicate HasFailed(w: Worker) {
    (w.pc.LivingLoad? || w.pc.LivingStore? || w.pc.FailUnlock? || w.pc.Dead?)
  }

  predicate HasGone(w: Worker) {
    (w.pc.FailUnlock? || w.pc.Dead?)
  }

  predicate IsIdle(w: Worker) {
    InSleepPath(w) || HasFailed(w) || w.pc == Finished
  }

  /** In `folder_scan` after `opendir` succeeded. */
  predicate Scanning(pc: PC) {
    || (pc.ScanTest? || pc.ReadEntry? || pc.CloseDir? || pc.PutLock? || pc.Put? || pc.PutUnlock?)
    || (pc.CastLock? || pc.CastUnlock? || pc.YieldLock? || pc.YieldUnlock?)
    || (pc.CountLock? || pc.CountLoad? || pc.CountStore? || pc.CountUnlock? || pc.PrintPath?)
  }

  predicate BeforeScan(pc: PC) {
    pc.TakeUnlock? || pc.TakeTest? || pc.OpenDir?
  }

  /** The directory the worker took from the queue and has not finished. */
  predicate Holding(w: Worker) {
    w.curr.Some? && (BeforeScan(w.pc) || Scanning(w.pc))
  }

  function PendingMass(needle: string, m: Measure, w: Worker): nat {
    if !Holding(w) then 0
    else if BeforeScan(w.pc) then JobMass(needle, m, w.curr.value)
    else FolderWeight(m, w.curr.value.path) + Mass(needle, m, w.curr.value.path, w.rest) + FreshMass(needle, m, w)
  }

  /** The entry read last, while it is neither queued nor counted nor printed. */
  function FreshMass(needle: string, m: Measure, w: Worker): nat {
    if (w.pc.PutLock? || w.pc.Put?) then JobMass(needle, m, Job(w.path, w.listing))
    else if (w.pc.CountLock? || w.pc.CountLoad? || w.pc.CountStore?) then HitWeight(m, w.path)
    else if (w.pc.CountUnlock? || w.pc.PrintPath?) && !m.Matches? then HitWeight(m, w.path)
    else 0
  }

  function Score(k: Tally, w: Worker): nat {
    match k
    case Naps => One(Napping(w))
    case Failed => One(HasFailed(w))
    case Gone => One(HasGone(w))
    case Idle => One(IsIdle(w))
  }

  function Sum(k: Tally, ws: seq<Worker>): nat {
    if ws == [] then 0 else Score(k, ws[0]) + Sum(k, ws[1..])
  }

  lemma {:induction false} SumUpdate(k: Tally, ws: seq<Worker>, t: nat, w: Worker)
    requires t < |ws|
    ensures Sum(k, ws[t := w]) == Sum(k, ws) - Score(k, ws[t]) + Score(k, w)
  {
    if t == 0 {
      assert ws[t := w][1..] == ws[1..];
    } else {
      assert ws[t := w][1..] == ws[1..][t - 1 := w];
      SumUpdate(k, ws[1..], t - 1, w);
    }
  }

  /** A worker that scores contributes; if all scores are 0 or 1 the sum is at most the number of
      workers, and reaches it only if every one scores. */
  lemma {:induction false} SumBounds(k: Tally, ws: seq<Worker>, t: nat)
    requires t < |ws|
    ensures Score(k, ws[t]) <= Sum(k, ws) <= |ws| - 1 + Score(k, ws[t])
  {
    SumAtMost(k, ws[1..]);
    if t > 0 {
      SumBounds(k, ws[1..], t - 1);
    }
  }

  lemma {:induction false} SumAtMost(k: Tally, ws: seq<Worker>)
    ensures Sum(k, ws) <= |ws|
  {
    if ws != [] {
      SumAtMost(k, ws[1..]);
    }
  }

  lemma {:induction false} SumZero(k: Tally, ws: seq<Worker>)
    requires forall t :: 0 <= t < |ws| ==> Score(k, ws[t]) == 0
    ensures Sum(k, ws) == 0
  {
    if ws != [] {
      assert forall t :: 0 <= t < |ws[1..]| ==> ws[1..][t] == ws[t + 1];
      SumZero(k, ws[1..]);
    }
  }

  /** If every worker naps, none has failed and every one is idle. */
  lemma {:induction false} AllNapping(ws: seq<Worker>)
    requires Sum(Naps, ws) == |ws|
    ensures Sum(Failed, ws) == 0 && Sum(Idle, ws) == |ws|
    ensures forall t :: 0 <= t < |ws| ==> Napping(ws[t])
  {
    if ws != [] {
      SumAtMost(Naps, ws[1..]);
      AllNapping(ws[1..]);
      assert forall t :: 0 < t < |ws| ==> ws[t] == ws[1..][t - 1];
    }
  }

  function PendingSum(needle: string, m: Measure, ws: seq<Worker>): nat {
    if ws == [] then 0 else PendingMass(needle, m, ws[0]) + PendingSum(needle, m, ws[1..])
  }

  lemma {:induction false} PendingUpdate(needle: string, m: Measure, ws: seq<Worker>, t: nat, w: Worker)
    requires t < |ws|
    ensures PendingSum(needle, m, ws[t := w])
         == PendingSum(needle, m, ws) - PendingMass(needle, m, ws[t]) + PendingMass(needle, m, w)
  {
    if t == 0 {
      assert ws[t := w][1..] == ws[1..];
    } else {
      assert ws[t := w][1..] == ws[1..][t - 1 := w];
      PendingUpdate(needle, m, ws[1..], t - 1, w);
    }
  }

  lemma {:induction false} PendingNothing(needle: string, m: Measure, ws: seq<Worker>)
    requires forall t :: 0 <= t < |ws| ==> !Holding(ws[t])
    ensures PendingSum(needle, m, ws) == 0
  {
    if ws != [] {
      assert forall t :: 0 <= t < |ws[1..]| ==> ws[1..][t] == ws[t + 1];
      PendingNothing(needle, m, ws[1..]);
    }
  }

  function QueueMass(needle: string, m: Measure, q: seq<Job>): nat {
    if q == [] then 0 else JobMass(needle, m, q[0]) + QueueMass(needle, m, q[1..])
  }

  lemma {:induction false} QueueMassAppend(needle: string, m: Measure, q: seq<Job>, job: Job)
    ensures QueueMass(needle, m, q + [job]) == QueueMass(needle, m, q) + JobMass(needle, m, job)
  {
    if q == [] {
      assert q + [job] == [job];
    } else {
      assert (q + [job])[1..] == q[1..] + [job];
      QueueMassAppend(needle, m, q[1..], job);
    }
  }

  // ---- The invariant ----

  /** Main has done the increment at line 332: the workers may pass line 249. */
  predicate Started(pc: MainPC) {
    !Creating(pc) && !(pc.OpenLock? || pc.OpenSet? || pc.OpenUnlock? || pc.OneLock? || pc.OneLoad? || pc.OneStore?)
  }

  predicate WorkerShape(w: Worker, g: Globals) {
    && (w.pc == OpenDir || Scanning(w.pc) ==> w.curr.Some?)
    && (w.pc == CloseDir ==> w.rest == [] || g.runEnded)
  }

  ghost predicate Shape(c: Config, s: State) {
    && |s.workers| == c.Workers()
    && s.main.created <= c.Workers()
    && (s.main.pc == EnqueueRoot ==> s.main.created == 0 && s.g.queue == [])
    && (s.main.pc == Create ==> s.main.created < c.limit)
    && ((s.main.pc.BirthLock? || s.main.pc.BirthLoad? || s.main.pc.BirthStore? || s.main.pc.BirthUnlock?) ==>
          0 < s.main.created)
    && (!Creating(s.main.pc) ==> s.main.created == c.Workers())
    && (forall t :: 0 <= t < |s.workers| ==> WorkerShape(s.workers[t], s.g))
    && (forall t :: 0 <= t < |s.workers| ==> (s.workers[t].pc == Unborn <==> s.main.created <= t))
  }

  /** `living_threads` as main has counted it so far, before any failure. */
  function Births(m: Main): int {
    m.created - One((m.pc.BirthLock? || m.pc.BirthLoad? || m.pc.BirthStore?))
  }

  /** A loaded value is still the value of the variable when it is stored back. */
  ghost predicate NoLostUpdate(s: State) {
    && (forall t :: 0 <= t < |s.workers| ==> FreshLoad(s.workers[t], s.g))
    && (s.main.pc == BirthStore ==> s.main.tmp == s.g.living)
    && (s.main.pc == OneStore ==> s.main.tmp == s.g.sleeping)
  }

  predicate FreshLoad(w: Worker, g: Globals) {
    match w.pc
    case CountStore => w.tmp == g.counter
    case FailStore => w.tmp == g.errors
    case LivingStore => w.tmp == g.living
    case NapStore | WakeStore => w.tmp == g.sleeping
    case _ => true
  }

  ghost predicate Counted(s: State) {
    && s.g.sleeping == One(Started(s.main.pc)) + Sum(Naps, s.workers)
    && s.g.errors == Sum(Failed, s.workers)
    && s.g.living == Births(s.main) - Sum(Gone, s.workers)
  }

  /** A queued directory leaves at least one worker that will take from the queue before it sleeps,
      unless a worker has failed or the run has ended. */
  ghost predicate NotStranded(c: Config, s: State) {
    s.g.queue == [] || c.Workers() == 0 || s.g.errors > 0 || s.g.runEnded || Sum(Idle, s.workers) < c.Workers()
  }

  /** Neither at work nor in an error. */
  predicate Calm(w: Worker) {
    !Holding(w) && !HasFailed(w) && !(w.pc.OpenDir? || w.pc.FailLock? || w.pc.FailLoad? || w.pc.FailStore?)
  }

  /** Nothing is left to do and nobody has failed. */
  ghost predicate Quiet(c: Config, s: State) {
    && s.main.pc != EnqueueRoot
    && s.g.errors == 0
    && (c.Workers() > 0 ==> s.g.queue == [])
    && (forall t :: 0 <= t < |s.workers| ==> Calm(s.workers[t]))
  }

  ghost predicate Verdicts(c: Config, s: State) {
    && (s.main.allAsleep ==> c.limit >= 0 && Quiet(c, s))
    && (s.main.errored > 0 ==> s.g.errors > 0)
    && (s.main.allErrors || s.main.allFinished ==> s.g.errors > 0 || Quiet(c, s))
    && (s.g.runEnded || s.main.pc.SetEnded? || s.main.pc.Report? || s.main.pc.Exited? ==>
          s.g.errors > 0 || Quiet(c, s))
    && (s.g.runEnded ==> (s.main.pc.Report? || s.main.pc.Exited?))
  }

  ghost predicate Inv(c: Config, s: State) {
    && Locked(s)
    && Shape(c, s)
    && NoLostUpdate(s)
    && Counted(s)
    && NotStranded(c, s)
    && Verdicts(c, s)
  }

  // ---- The initial state ----

  lemma InitInv(c: Config)
    ensures Inv(c, Init(c))
  {
    hide Locked, Counted, Shape, NoLostUpdate, NotStranded, Verdicts;
    InitLocked(c);
    InitCounted(c);
    InitShape(c);
    InitVerdicts(c);
  }

  lemma InitVerdicts(c: Config)
    ensures NotStranded(c, Init(c)) && Verdicts(c, Init(c))
  {
  }

  lemma InitLocked(c: Config)
    ensures Locked(Init(c))
  {
  }

  lemma InitCounted(c: Config)
    ensures Counted(Init(c))
  {
    SumZero(Naps, Init(c).workers);
    SumZero(Failed, Init(c).workers);
    SumZero(Gone, Init(c).workers);
  }

  lemma InitShape(c: Config)
    ensures Shape(c, Init(c)) && NoLostUpdate(Init(c))
  {
  }

  // ---- One worker step, seen from the worker alone ----

  /** The counters move with the worker, and only under their lock. */
  ghost predicate CountEffect(w: Worker, g: Globals, w': Worker, g': Globals) {
    && g'.sleeping - g.sleeping == One(Napping(w')) - One(Napping(w))
    && g'.errors - g.errors == One(HasFailed(w')) - One(HasFailed(w)) >= 0
    && g'.living - g.living == One(HasGone(w)) - One(HasGone(w'))
    && (g'.sleeping != g.sleeping ==> Holds(w.pc, SleepMutex))
    && (g'.errors != g.errors || g'.living != g.living ==> Holds(w.pc, ErrorsLock))
    && (g'.counter != g.counter ==> Holds(w.pc, CounterLock))
    && FreshLoad(w', g')
  }

  /** A worker that becomes idle saw an empty queue, an error or the end of the run;
      a calm worker stays calm when there is nothing to take. */
  ghost predicate QueueEffect(w: Worker, g: Globals, w': Worker, g': Globals) {
    && (IsIdle(w') ==> g'.queue == [] || g'.errors > 0 || g.runEnded || (IsIdle(w) && g'.queue == g.queue))
    && (Calm(w) && g.queue == [] ==> Calm(w') && g'.queue == [] && g'.errors == g.errors)
  }

  ghost predicate ShapeEffect(w: Worker, g: Globals, w': Worker, g': Globals) {
    && g'.runEnded == g.runEnded && g'.allError == g.allError
    && w.pc != Unborn && w'.pc != Unborn && WorkerShape(w', g')
  }

  // ---- Lock steps ----

  /** The section after taking a lock, and after giving one back. */
  function Enter(k: Section, l: Lock): Section {
    match l
    case StartMutex => InStart
    case SleepMutex => if k.InQueue? then InBoth else InSleep
    case QueueMutex => InQueue
    case CounterLock => InCounter
    case ErrorsLock => InErrors
  }

  function Leave(k: Section, l: Lock): Section {
    if k.InBoth? && l.SleepMutex? then InQueue else Outside
  }

  /** Locks are taken outside all sections, except the sleeping lock inside the queue lock. */
  lemma TakeSection(pc: PC)
    requires Op(pc).TakeOf?
    ensures SectionOf(AfterOp(pc)) == Enter(SectionOf(pc), Op(pc).l)
    ensures SectionOf(pc).Outside? || (SectionOf(pc).InQueue? && Op(pc).l.SleepMutex?)
  {
  }

  lemma GiveSection(pc: PC)
    requires Op(pc).GiveOf?
    ensures SectionOf(AfterOp(pc)) == Leave(SectionOf(pc), Op(pc).l) && Owns(SectionOf(pc), Op(pc).l)
    ensures SectionOf(pc).InBoth? ==> Op(pc).l.SleepMutex?
  {
  }

  /** A taking step adds exactly one lock, which was not held. */
  lemma TakeHolds(pc: PC, l: Lock)
    requires Op(pc).TakeOf?
    ensures Holds(AfterOp(pc), l) <==> Holds(pc, l) || l == Op(pc).l
    ensures !Holds(pc, Op(pc).l)
  {
    hide SectionOf, Op, AfterOp;
    TakeSection(pc);
  }

  /** A giving step removes exactly one, which was held. */
  lemma GiveHolds(pc: PC, l: Lock)
    requires Op(pc).GiveOf?
    ensures Holds(AfterOp(pc), l) <==> Holds(pc, l) && l != Op(pc).l
    ensures Holds(pc, Op(pc).l)
  {
    hide SectionOf, Op, AfterOp;
    GiveSection(pc);
  }

  /** Nothing else about the worker changes at a lock step. */
  lemma OpCounts(w: Worker, g: Globals, locks: LockTable)
    requires !Op(w.pc).NoLock?
    ensures CountEffect(w, g, w.(pc := AfterOp(w.pc)), g.(locks := locks))
  {
  }

  lemma OpQueue(w: Worker, g: Globals, locks: LockTable)
    requires !Op(w.pc).NoLock?
    ensures QueueEffect(w, g, w.(pc := AfterOp(w.pc)), g.(locks := locks))
  {
  }

  lemma OpShape(w: Worker, g: Globals, locks: LockTable)
    requires !Op(w.pc).NoLock? && WorkerShape(w, g)
    ensures ShapeEffect(w, g, w.(pc := AfterOp(w.pc)), g.(locks := locks))
  {
  }

  // ---- Plain steps ----

  lemma FailingLocks(w: Worker, g: Globals, w': Worker, g': Globals)
    requires FailingNext(w, g) == Moved(w', g')
    ensures g'.locks == g.locks && SectionOf(w'.pc) == SectionOf(w.pc)
  {
  }

  lemma FailingCounts(w: Worker, g: Globals, w': Worker, g': Globals)
    requires FreshLoad(w, g) && FailingNext(w, g) == Moved(w', g')
    ensures CountEffect(w, g, w', g')
  {
  }

  lemma FailingQueue(w: Worker, g: Globals, w': Worker, g': Globals)
    requires WorkerShape(w, g) && FreshLoad(w, g) && g.errors >= 0 && FailingNext(w, g) == Moved(w', g')
    ensures QueueEffect(w, g, w', g')
  {
  }

  lemma FailingShape(w: Worker, g: Globals, w': Worker, g': Globals)
    requires WorkerShape(w, g) && FailingNext(w, g) == Moved(w', g')
    ensures ShapeEffect(w, g, w', g')
  {
  }

  lemma NappingLocks(w: Worker, g: Globals, w': Worker, g': Globals)
    requires NappingNext(w, g) == Moved(w', g')
    ensures g'.locks == g.locks && SectionOf(w'.pc) == SectionOf(w.pc)
  {
  }

  lemma NappingCounts(w: Worker, g: Globals, w': Worker, g': Globals)
    requires FreshLoad(w, g) && NappingNext(w, g) == Moved(w', g')
    ensures CountEffect(w, g, w', g')
  {
  }

  lemma NappingQueue(w: Worker, g: Globals, w': Worker, g': Globals)
    requires WorkerShape(w, g) && FreshLoad(w, g) && g.errors >= 0 && NappingNext(w, g) == Moved(w', g')
    ensures QueueEffect(w, g, w', g')
  {
  }

  lemma NappingShape(w: Worker, g: Globals, w': Worker, g': Globals)
    requires WorkerShape(w, g) && NappingNext(w, g) == Moved(w', g')
    ensures ShapeEffect(w, g, w', g')
  {
  }

  lemma TestLocks(w: Worker, g: Globals, w': Worker, g': Globals)
    requires TestNext(w, g) == Moved(w', g')
    ensures g'.locks == g.locks && SectionOf(w'.pc) == SectionOf(w.pc)
  {
  }

  lemma TestCounts(w: Worker, g: Globals, w': Worker, g': Globals)
    requires FreshLoad(w, g) && TestNext(w, g) == Moved(w', g')
    ensures CountEffect(w, g, w', g')
  {
  }

  lemma TestQueue(w: Worker, g: Globals, w': Worker, g': Globals)
    requires WorkerShape(w, g) && FreshLoad(w, g) && g.errors >= 0 && TestNext(w, g) == Moved(w', g')
    ensures QueueEffect(w, g, w', g')
  {
  }

  lemma TestShape(w: Worker, g: Globals, w': Worker, g': Globals)
    requires WorkerShape(w, g) && TestNext(w, g) == Moved(w', g')
    ensures ShapeEffect(w, g, w', g')
  {
  }

  lemma ReadSection(c: Config, w: Worker, a: Answer)
    requires w.curr.Some? && w.rest != []
    ensures SectionOf(AfterRead(c, w, a).pc) == Outside
  {
  }

  lemma ScanLocks(c: Config, w: Worker, g: Globals, a: Answer, w': Worker, g': Globals)
    requires ScanNext(c, w, g, a) == Moved(w', g')
    ensures g'.locks == g.locks && SectionOf(w'.pc) == SectionOf(w.pc)
  {
    hide AfterRead;
    if w.pc.ReadEntry? && w.rest != [] {
      ReadSection(c, w, a);
    }
  }

  lemma ScanCounts(c: Config, w: Worker, g: Globals, a: Answer, w': Worker, g': Globals)
    requires FreshLoad(w, g) && ScanNext(c, w, g, a) == Moved(w', g')
    ensures CountEffect(w, g, w', g')
  {
  }

  lemma ScanQueue(c: Config, w: Worker, g: Globals, a: Answer, w': Worker, g': Globals)
    requires WorkerShape(w, g) && FreshLoad(w, g) && g.errors >= 0 && ScanNext(c, w, g, a) == Moved(w', g')
    ensures QueueEffect(w, g, w', g')
  {
  }

  lemma ScanShape(c: Config, w: Worker, g: Globals, a: Answer, w': Worker, g': Globals)
    requires WorkerShape(w, g) && ScanNext(c, w, g, a) == Moved(w', g')
    ensures ShapeEffect(w, g, w', g')
  {
  }

  lemma PlainLocks(w: Worker, g: Globals, w': Worker, g': Globals)
    requires PlainNext(w, g) == Moved(w', g')
    ensures g'.locks == g.locks && SectionOf(w'.pc) == SectionOf(w.pc)
  {
  }

  lemma PlainCounts(w: Worker, g: Globals, w': Worker, g': Globals)
    requires FreshLoad(w, g) && PlainNext(w, g) == Moved(w', g')
    ensures CountEffect(w, g, w', g')
  {
  }

  lemma PlainQueue(w: Worker, g: Globals, w': Worker, g': Globals)
    requires WorkerShape(w, g) && FreshLoad(w, g) && g.errors >= 0 && PlainNext(w, g) == Moved(w', g')
    ensures QueueEffect(w, g, w', g')
  {
  }

  lemma PlainShape(w: Worker, g: Globals, w': Worker, g': Globals)
    requires WorkerShape(w, g) && PlainNext(w, g) == Moved(w', g')
    ensures ShapeEffect(w, g, w', g')
  {
  }

  // ---- Putting the groups together ----

  /** What a step may do to the locks: nothing, take a free one, give back its own. */
  ghost predicate LockEffect(w: Worker, g: Globals, w': Worker, g': Globals, t: nat) {
    match Op(w.pc)
    case NoLock => g'.locks == g.locks && forall l :: Holds(w'.pc, l) <==> Holds(w.pc, l)
    case TakeOf(k) =>
      && k !in g.locks && g'.locks == g.locks[k := ByWorker(t)] && !Holds(w.pc, k)
      && forall l :: Holds(w'.pc, l) <==> Holds(w.pc, l) || l == k
    case GiveOf(k) =>
      && g'.locks == g.locks - {k} && Holds(w.pc, k)
      && forall l :: Holds(w'.pc, l) <==> Holds(w.pc, l) && l != k
  }

  lemma WorkerEffect(c: Config, w: Worker, g: Globals, t: nat, a: Answer, w': Worker, g': Globals)
    requires WorkerShape(w, g) && FreshLoad(w, g) && g.errors >= 0
    requires WorkerNext(c, w, g, t, a) == Moved(w', g')
    ensures CountEffect(w, g, w', g') && QueueEffect(w, g, w', g') && ShapeEffect(w, g, w', g')
  {
    hide ScanNext, AfterRead, FailingNext, NappingNext, TestNext, PlainNext;
    hide CountEffect, QueueEffect, ShapeEffect, FreshLoad, WorkerShape;
    if !Op(w.pc).NoLock? {
      OpCounts(w, g, g'.locks);
      OpQueue(w, g, g'.locks);
      OpShape(w, g, g'.locks);
    } else if InScan(w.pc) {
      ScanCounts(c, w, g, a, w', g');
      ScanQueue(c, w, g, a, w', g');
      ScanShape(c, w, g, a, w', g');
    } else if InFailing(w.pc) {
      FailingCounts(w, g, w', g');
      FailingQueue(w, g, w', g');
      FailingShape(w, g, w', g');
    } else if InNapping(w.pc) {
      NappingCounts(w, g, w', g');
      NappingQueue(w, g, w', g');
      NappingShape(w, g, w', g');
    } else if InTest(w.pc) {
      TestCounts(w, g, w', g');
      TestQueue(w, g, w', g');
      TestShape(w, g, w', g');
    } else {
      PlainCounts(w, g, w', g');
      PlainQueue(w, g, w', g');
      PlainShape(w, g, w', g');
    }
  }

  lemma WorkerLockEffect(c: Config, w: Worker, g: Globals, t: nat, a: Answer, w': Worker, g': Globals)
    requires WorkerNext(c, w, g, t, a) == Moved(w', g')
    ensures LockEffect(w, g, w', g', t)
  {
    hide ScanNext, AfterRead, FailingNext, NappingNext, TestNext, PlainNext, SectionOf, Owns;
    if Op(w.pc).TakeOf? {
      TakeHolds(w.pc, Op(w.pc).l);
      forall l {
        TakeHolds(w.pc, l);
      }
    } else if Op(w.pc).GiveOf? {
      GiveHolds(w.pc, Op(w.pc).l);
      forall l {
        GiveHolds(w.pc, l);
      }
    } else if InScan(w.pc) {
      ScanLocks(c, w, g, a, w', g');
    } else if InFailing(w.pc) {
      FailingLocks(w, g, w', g');
    } else if InNapping(w.pc) {
      NappingLocks(w, g, w', g');
    } else if InTest(w.pc) {
      TestLocks(w, g, w', g');
    } else {
      PlainLocks(w, g, w', g');
    }
  }

  // ---- From one worker to the whole state ----

  lemma LockedKept(s: State, t: nat, s': State)
    requires t < |s.workers| == |s'.workers| && s'.workers == s.workers[t := s'.workers[t]] && s'.main == s.main
    requires Locked(s) && LockEffect(s.workers[t], s.g, s'.workers[t], s'.g, t)
    ensures Locked(s')
  {
    forall l: Lock, u: nat
      ensures OwnedBy(s'.g, l, ByWorker(u)) <==> u < |s'.workers| && Holds(s'.workers[u].pc, l)
    {
      assert OwnedBy(s.g, l, ByWorker(u)) <==> u < |s.workers| && Holds(s.workers[u].pc, l);
      assert OwnedBy(s.g, l, ByWorker(t)) <==> Holds(s.workers[t].pc, l);
    }
    forall l: Lock
      ensures OwnedBy(s'.g, l, ByMain) <==> MainHolds(s'.main.pc, l)
    {
      assert OwnedBy(s.g, l, ByMain) <==> MainHolds(s.main.pc, l);
      assert OwnedBy(s.g, l, ByWorker(t)) <==> Holds(s.workers[t].pc, l);
    }
  }

  /** Only the holder of a lock changes what the lock protects. */
  lemma NoLostUpdateKept(s: State, t: nat, s': State)
    requires t < |s.workers| == |s'.workers| && s'.workers == s.workers[t := s'.workers[t]] && s'.main == s.main
    requires Locked(s) && NoLostUpdate(s) && CountEffect(s.workers[t], s.g, s'.workers[t], s'.g)
    ensures NoLostUpdate(s')
  {
    hide Napping, HasFailed, HasGone;
    forall u | 0 <= u < |s'.workers|
      ensures FreshLoad(s'.workers[u], s'.g)
    {
      if u != t {
        assert FreshLoad(s.workers[u], s.g);
        StoreHolds(s.workers[u].pc);
        Exclusive(s, t, u);
      }
    }
    ExclusiveMain(s, t);
  }

  /** A store happens inside the critical section of its variable. */
  lemma StoreHolds(pc: PC)
    ensures pc.CountStore? ==> Holds(pc, CounterLock)
    ensures pc.FailStore? || pc.LivingStore? ==> Holds(pc, ErrorsLock)
    ensures pc.NapStore? || pc.WakeStore? ==> Holds(pc, SleepMutex)
  {
  }

  /** Mutual exclusion between two workers. */
  lemma Exclusive(s: State, t: nat, u: nat)
    requires Locked(s) && t < |s.workers| && u < |s.workers| && t != u
    ensures forall l :: !(Holds(s.workers[t].pc, l) && Holds(s.workers[u].pc, l))
  {
    forall l | Holds(s.workers[t].pc, l)
      ensures !Holds(s.workers[u].pc, l)
    {
      assert OwnedBy(s.g, l, ByWorker(t));
      assert !OwnedBy(s.g, l, ByWorker(u));
    }
  }

  /** Mutual exclusion between a worker and the main thread. */
  lemma ExclusiveMain(s: State, t: nat)
    requires Locked(s) && t < |s.workers|
    ensures forall l :: !(Holds(s.workers[t].pc, l) && MainHolds(s.main.pc, l))
  {
    forall l | Holds(s.workers[t].pc, l)
      ensures !MainHolds(s.main.pc, l)
    {
      assert OwnedBy(s.g, l, ByWorker(t));
      assert !OwnedBy(s.g, l, ByMain);
    }
  }

  lemma CountedKept(s: State, t: nat, s': State)
    requires t < |s.workers| == |s'.workers| && s'.workers == s.workers[t := s'.workers[t]] && s'.main == s.main
    requires Counted(s) && CountEffect(s.workers[t], s.g, s'.workers[t], s'.g)
    ensures Counted(s')
  {
    SumUpdate(Naps, s.workers, t, s'.workers[t]);
    SumUpdate(Failed, s.workers, t, s'.workers[t]);
    SumUpdate(Gone, s.workers, t, s'.workers[t]);
  }

  lemma NotStrandedKept(c: Config, s: State, t: nat, s': State)
    requires t < |s.workers| == |s'.workers| && s'.workers == s.workers[t := s'.workers[t]]
    requires |s.workers| == c.Workers() && s'.g.runEnded == s.g.runEnded
    requires NotStranded(c, s) && QueueEffect(s.workers[t], s.g, s'.workers[t], s'.g)
    requires s'.g.errors >= s.g.errors
    ensures NotStranded(c, s')
  {
    SumUpdate(Idle, s.workers, t, s'.workers[t]);
    SumBounds(Idle, s'.workers, t);
  }

  /** Once nothing is left to do, nothing comes back. */
  lemma QuietKept(c: Config, s: State, t: nat, s': State)
    requires t < |s.workers| == |s'.workers| && s'.workers == s.workers[t := s'.workers[t]] && s'.main == s.main
    requires |s.workers| == c.Workers()
    requires Quiet(c, s) && QueueEffect(s.workers[t], s.g, s'.workers[t], s'.g)
    ensures Quiet(c, s')
  {
  }

  lemma VerdictsKept(c: Config, s: State, t: nat, s': State)
    requires t < |s.workers| == |s'.workers| && s'.workers == s.workers[t := s'.workers[t]] && s'.main == s.main
    requires |s.workers| == c.Workers() && s'.g.runEnded == s.g.runEnded && s'.g.errors >= s.g.errors
    requires Verdicts(c, s) && QueueEffect(s.workers[t], s.g, s'.workers[t], s'.g)
    ensures Verdicts(c, s')
  {
    if Quiet(c, s) {
      QuietKept(c, s, t, s');
    }
  }

  lemma ShapeKept(c: Config, s: State, t: nat, s': State)
    requires t < |s.workers| == |s'.workers| && s'.workers == s.workers[t := s'.workers[t]] && s'.main == s.main
    requires Shape(c, s) && ShapeEffect(s.workers[t], s.g, s'.workers[t], s'.g)
    requires s.main.pc != EnqueueRoot
    ensures Shape(c, s')
  {
  }

  lemma WorkerStepInv(c: Config, s: State, t: nat, a: Answer, w': Worker, g': Globals)
    requires Inv(c, s) && t < |s.workers| && WorkerNext(c, s.workers[t], s.g, t, a) == Moved(w', g')
    ensures Inv(c, State(s.workers[t := w'], s.main, g'))
  {
    hide WorkerNext, LockEffect, QueueEffect, Locked, NotStranded, Verdicts;
    var s' := State(s.workers[t := w'], s.main, g');
    WorkerEffect(c, s.workers[t], s.g, t, a, w', g');
    WorkerLockEffect(c, s.workers[t], s.g, t, a, w', g');
    LockedKept(s, t, s');
    ShapeKept(c, s, t, s');
    NoLostUpdateKept(s, t, s');
    CountedKept(s, t, s');
    NotStrandedKept(c, s, t, s');
    VerdictsKept(c, s, t, s');
  }
}
