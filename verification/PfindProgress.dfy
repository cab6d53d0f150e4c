/** The search can always be finished: from every state without an error some schedule leads to a
    successful all-asleep test. */
module PfindProgress {
  import opened Basics
  import opened FileTree
  import opened Pfind
  import opened PfindInvariant
  import opened PfindMain
  import opened PfindConservation
  import opened PfindTheorems

  // ---- What else holds in every run ----

  /** The start lock has been opened: line 325 is done. */
  predicate Opened(pc: MainPC) {
    !Creating(pc) && !pc.OpenLock? && !pc.OpenSet?
  }

  /** Main only gives up because of an error or a successful test; nobody finishes before the end. */
  ghost predicate Honest(s: State) {
    && (s.main.allErrors || s.main.allFinished ==> s.g.errors > 0)
    && (Ending(s.main.pc) ==> s.main.allAsleep || s.g.errors > 0)
    && (s.g.runEnded ==> Ending(s.main.pc))
    && (Opened(s.main.pc) ==> s.g.canStart)
    && (forall t :: 0 <= t < |s.workers| && s.workers[t].pc.Finished? ==> s.g.runEnded)
  }

  lemma CreateOpens(c: Config, m: Main, g: Globals, m': Main, g': Globals)
    requires CreateNext(c, m, g) == MainMoved(m', g')
    ensures !Opened(m'.pc) && !Ending(m'.pc) && g'.canStart == g.canStart
  {
  }

  lemma OpenOpens(m: Main, g: Globals, m': Main, g': Globals)
    requires OpenNext(m, g) == MainMoved(m', g')
    ensures (m.pc.OpenSet? ==> g'.canStart) && (g.canStart ==> g'.canStart) && !Ending(m'.pc)
    ensures m.pc.OpenSet? || Opened(m.pc)
  {
  }

  lemma LaterOpens(c: Config, m: Main, g: Globals, m': Main, g': Globals)
    requires CompareNext(m, g) == MainMoved(m', g') || DecideNext(c, m, g) == MainMoved(m', g')
          || EndNext(m, g) == MainMoved(m', g')
    ensures g'.canStart == g.canStart && Opened(m.pc) && (Ending(m'.pc) ==> m'.allAsleep == m.allAsleep)
  {
  }

  lemma OpOpens(m: Main)
    requires !MainOp(m.pc).NoLock?
    ensures !Ending(MainAfterOp(m.pc)) && !Ending(m.pc) && (Opened(MainAfterOp(m.pc)) ==> Opened(m.pc))
  {
  }

  lemma MainOpens(c: Config, m: Main, g: Globals, m': Main, g': Globals)
    requires MainNext(c, m, g) == MainMoved(m', g')
    ensures g.canStart ==> g'.canStart
    ensures Opened(m'.pc) ==> Opened(m.pc) || g'.canStart
    ensures Ending(m'.pc) ==> m'.allAsleep == m.allAsleep
  {
    hide CreateNext, OpenNext, CompareNext, DecideNext, EndNext, Opened, MainAfterOp;
    if !MainOp(m.pc).NoLock? {
      OpOpens(m);
    } else if Creating(m.pc) {
      CreateOpens(c, m, g, m', g');
    } else if Opening(m.pc) {
      OpenOpens(m, g, m', g');
    } else {
      LaterOpens(c, m, g, m', g');
    }
  }

  lemma OpFinishes(pc: PC)
    ensures AfterOp(pc).Finished? ==> pc.Finished?
    ensures !Op(pc).NoLock? ==> !AfterOp(pc).Finished?
  {
  }

  lemma ScanFinishes(c: Config, w: Worker, g: Globals, a: Answer, w': Worker, g': Globals)
    requires ScanNext(c, w, g, a) == Moved(w', g')
    ensures g'.canStart == g.canStart && !w'.pc.Finished?
  {
    hide Contains;
  }

  lemma RestFinishes(w: Worker, g: Globals, w': Worker, g': Globals)
    requires NappingNext(w, g) == Moved(w', g') || FailingNext(w, g) == Moved(w', g')
          || PlainNext(w, g) == Moved(w', g')
    ensures g'.canStart == g.canStart && !w'.pc.Finished?
  {
  }

  lemma TestFinishes(w: Worker, g: Globals, w': Worker, g': Globals)
    requires TestNext(w, g) == Moved(w', g')
    ensures g'.canStart == g.canStart && (w'.pc.Finished? ==> g.runEnded)
  {
  }

  lemma WorkerStays(c: Config, w: Worker, g: Globals, t: nat, a: Answer, w': Worker, g': Globals)
    requires WorkerNext(c, w, g, t, a) == Moved(w', g')
    ensures g'.canStart == g.canStart && (w'.pc.Finished? ==> g.runEnded)
  {
    hide ScanNext, NappingNext, TestNext, PlainNext, FailingNext, AfterOp;
    OpFinishes(w.pc);
    if Op(w.pc).NoLock? {
      if InScan(w.pc) {
        ScanFinishes(c, w, g, a, w', g');
      } else if InTest(w.pc) && !InFailing(w.pc) && !InNapping(w.pc) {
        TestFinishes(w, g, w', g');
      } else {
        RestFinishes(w, g, w', g');
      }
    }
  }

  lemma ErrorsCounted(s: State)
    requires Counted(s)
    ensures s.g.errors >= 0
  {
  }

  lemma HonestNext(c: Config, s: State, e: Event)
    requires Inv(c, s) && Honest(s) && c.limit > 0 && Next(c, s, e).Some?
    ensures Honest(Next(c, s, e).value)
  {
    hide WorkerNext, MainNext, Locked, NotStranded, QueueEffect, Quiet, WorkerShape, Opened, Counted;
    match e
    case MainStep =>
      var o := MainNext(c, s.main, s.g);
      MainEffect(c, s.main, s.g, o.m, o.g);
      MainOpens(c, s.main, s.g, o.m, o.g);
    case WorkerStep(t, a) =>
      var o := WorkerNext(c, s.workers[t], s.g, t, a);
      ErrorsCounted(s);
      WorkerEffect(c, s.workers[t], s.g, t, a, o.w, o.g);
      WorkerStays(c, s.workers[t], s.g, t, a, o.w, o.g);
  }

  lemma {:induction false} RunHonest(c: Config, schedule: seq<Event>)
    requires Run(c, schedule).Some? && c.limit > 0
    ensures Honest(Run(c, schedule).value)
  {
    hide Inv, Next, Honest;
    if schedule == [] {
      InitHonest(c);
    } else {
      var n := |schedule| - 1;
      RunInv(c, schedule[..n]);
      RunHonest(c, schedule[..n]);
      HonestNext(c, Run(c, schedule[..n]).value, schedule[n]);
    }
  }

  lemma InitHonest(c: Config)
    ensures Honest(Init(c))
  {
  }

  // ---- How far a worker still has to go ----

  const STEP: nat := 50

  /** The number of entries below, each directory twice. */
  function Load(entries: seq<Entry>): nat
    decreases entries
  {
    if entries == [] then 0 else EntryLoad(entries[0]) + Load(entries[1..])
  }

  function EntryLoad(e: Entry): nat
    decreases e
  {
    match e
    case File(_) => 1
    case Dir(_, inner) => 2 + Load(inner)
  }

  /** Steps to the next rest, if there is nothing to scan. Before main has started the search, the rests
      are the waits at lines 236 and 250; afterwards only the one at line 293. */
  function Base(pc: PC, started: bool): nat {
    match pc
    case WakeLock => 32 case WakeLoad => 31 case WakeStore => 30 case WakeUnlock => 29 case QueueUnlock => 28
    case StartEnter => if started then 31 else 27
    case StartWait => if started then 30 else 26
    case StartLock => 30 case StartTest => 29 case StartUnlock => 28
    case LoopTest => 27
    case GateEnter => if started then 26 else 23
    case GateWait => if started then 25 else 22
    case GateLock => 26 case GateTest => 24 case GateUnlock => 23
    case TakeLock => 22 case Take => 21 case TakeUnlock => 20 case TakeTest => 19
    case OpenDir => 18
    case PutLock => 17 case Put => 16 case PutUnlock => 15 case CastLock => 14 case CastUnlock => 13
    case YieldLock => 12 case YieldUnlock => 11
    case CountLock => 16 case CountLoad => 15 case CountStore => 14 case CountUnlock => 13 case PrintPath => 12
    case ScanTest => 10 case ReadEntry => 9 case CloseDir => 8
    case NapLock => 7 case NapLoad => 6 case NapStore => 5 case NapUnlock => 4 case WaitLock => 3 case WaitEnter => 2
    case _ => 0
  }

  /** What the worker still has to scan of the directory it holds, and to queue. */
  function Held(w: Worker): nat {
    if !Holding(w) then 0
    else if BeforeScan(w.pc) then 1 + Load(w.curr.value.entries)
    else 1 + Load(w.rest) + (if w.pc.PutLock? || w.pc.Put? then 1 + Load(w.listing) else 0)
  }

  function WorkerRank(w: Worker, started: bool): nat {
    STEP * Held(w) + Base(w.pc, started)
  }

  function RankSum(ws: seq<Worker>, started: bool): nat {
    if ws == [] then 0 else WorkerRank(ws[0], started) + RankSum(ws[1..], started)
  }

  function QueueLoad(q: seq<Job>): nat {
    if q == [] then 0 else 1 + Load(q[0].entries) + QueueLoad(q[1..])
  }

  function WorkRank(s: State): nat {
    STEP * QueueLoad(s.g.queue) + RankSum(s.workers, Started(s.main.pc))
  }

  lemma {:induction false} RankUpdate(ws: seq<Worker>, started: bool, t: nat, w: Worker)
    requires t < |ws|
    ensures RankSum(ws[t := w], started)
         == RankSum(ws, started) - WorkerRank(ws[t], started) + WorkerRank(w, started)
  {
    if t == 0 {
      assert ws[t := w][1..] == ws[1..];
    } else {
      assert ws[t := w][1..] == ws[1..][t - 1 := w];
      RankUpdate(ws[1..], started, t - 1, w);
    }
  }

  lemma {:induction false} LoadAppend(q: seq<Job>, job: Job)
    ensures QueueLoad(q + [job]) == QueueLoad(q) + 1 + Load(job.entries)
  {
    if q == [] {
      assert q + [job] == [job];
    } else {
      assert (q + [job])[1..] == q[1..] + [job];
      LoadAppend(q[1..], job);
    }
  }

  /** A worker that neither rests nor has met an error. */
  predicate Busy(w: Worker, started: bool) {
    && !w.pc.Unborn? && !w.pc.Finished? && !w.pc.Asleep? && !HasFailed(w) && !Doomed(w)
    && (!started ==> !w.pc.StartWait? && !w.pc.GateWait?)
  }

  /** The world in which a busy worker gets on. */
  predicate Open(g: Globals, started: bool) {
    !g.runEnded && (started ==> g.canStart && g.sleeping >= 1)
  }

  predicate Descends(w: Worker, g: Globals, w': Worker, g': Globals, started: bool) {
    && STEP * QueueLoad(g'.queue) + WorkerRank(w', started) < STEP * QueueLoad(g.queue) + WorkerRank(w, started)
    && !Doomed(w') && g'.errors == g.errors
  }

  /** A step that only moves the worker on. */
  predicate MovesOn(w: Worker, w': Worker, started: bool) {
    Held(w') == Held(w) && Base(w'.pc, started) < Base(w.pc, started) && !Doomed(w')
  }

  lemma MovedOn(w: Worker, g: Globals, w': Worker, g': Globals, started: bool)
    requires MovesOn(w, w', started) && g'.queue == g.queue && g'.errors == g.errors
    ensures Descends(w, g, w', g', started)
  {
    hide Held, Base, QueueLoad, Doomed;
  }

  lemma OpBase(w: Worker, started: bool)
    requires Busy(w, started) && !Op(w.pc).NoLock?
    ensures Base(AfterOp(w.pc), started) < Base(w.pc, started)
  {
  }

  lemma OpHeld(w: Worker, started: bool)
    requires Busy(w, started) && !Op(w.pc).NoLock?
    ensures Held(w.(pc := AfterOp(w.pc))) == Held(w) && !Doomed(w.(pc := AfterOp(w.pc)))
  {
    hide Load;
  }

  lemma OpDescends(w: Worker, g: Globals, started: bool, locks: LockTable)
    requires Busy(w, started) && !Op(w.pc).NoLock?
    ensures Descends(w, g, w.(pc := AfterOp(w.pc)), g.(locks := locks), started)
  {
    hide Busy, Base, Held, Descends, Doomed, AfterOp, Op;
    OpBase(w, started);
    OpHeld(w, started);
    MovedOn(w, g, w.(pc := AfterOp(w.pc)), g.(locks := locks), started);
  }

  lemma TestMoves(w: Worker, g: Globals, started: bool, w': Worker, g': Globals)
    requires Busy(w, started) && Open(g, started) && TestNext(w, g) == Moved(w', g')
    ensures MovesOn(w, w', started) && g' == g
  {
    hide Load;
  }

  lemma NapMoves(w: Worker, g: Globals, started: bool, w': Worker, g': Globals)
    requires Busy(w, started) && NappingNext(w, g) == Moved(w', g')
    ensures MovesOn(w, w', started) && g'.queue == g.queue && g'.errors == g.errors
  {
    hide Load;
  }

  lemma CountMoves(w: Worker, g: Globals, started: bool, w': Worker, g': Globals)
    requires Busy(w, started) && !w.pc.Take? && !w.pc.Put? && PlainNext(w, g) == Moved(w', g')
    ensures MovesOn(w, w', started) && g'.queue == g.queue && g'.errors == g.errors
  {
    hide Load;
  }

  lemma TakeDescends(w: Worker, g: Globals, started: bool, w': Worker, g': Globals)
    requires w.pc.Take? && PlainNext(w, g) == Moved(w', g')
    ensures Descends(w, g, w', g', started)
  {
    hide Load;
  }

  lemma PutDescends(w: Worker, g: Globals, started: bool, w': Worker, g': Globals)
    requires w.pc.Put? && Busy(w, started) && WorkerShape(w, g) && PlainNext(w, g) == Moved(w', g')
    ensures Descends(w, g, w', g', started)
  {
    hide Load;
    LoadAppend(g.queue, Job(w.path, w.listing));
  }

  lemma PlainDescends(w: Worker, g: Globals, started: bool, w': Worker, g': Globals)
    requires Busy(w, started) && WorkerShape(w, g) && PlainNext(w, g) == Moved(w', g')
    ensures Descends(w, g, w', g', started)
  {
    hide PlainNext, Busy, WorkerShape, Descends, MovesOn;
    if w.pc.Take? {
      TakeDescends(w, g, started, w', g');
    } else if w.pc.Put? {
      PutDescends(w, g, started, w', g');
    } else {
      CountMoves(w, g, started, w', g');
      MovedOn(w, g, w', g', started);
    }
  }

  lemma ScanDescends(c: Config, w: Worker, g: Globals, started: bool, w': Worker, g': Globals)
    requires Busy(w, started) && Open(g, started) && WorkerShape(w, g) && ScanNext(c, w, g, Ok) == Moved(w', g')
    ensures Descends(w, g, w', g', started)
  {
    hide QueueLoad, Contains;
    if w.pc.ReadEntry? && w.rest != [] {
      assert Load(w.rest) == EntryLoad(w.rest[0]) + Load(w.rest[1..]);
    }
  }

  lemma NotFailing(w: Worker, started: bool)
    requires Busy(w, started)
    ensures !InFailing(w.pc)
  {
  }

  lemma WorkerDescends(c: Config, w: Worker, g: Globals, t: nat, started: bool, w': Worker, g': Globals)
    requires Busy(w, started) && Open(g, started) && WorkerShape(w, g)
    requires WorkerNext(c, w, g, t, Ok) == Moved(w', g')
    ensures Descends(w, g, w', g', started)
  {
    hide ScanNext, NappingNext, TestNext, PlainNext, FailingNext, Busy, Open, WorkerShape, Descends, MovesOn, AfterOp;
    NotFailing(w, started);
    if !Op(w.pc).NoLock? {
      OpDescends(w, g, started, g'.locks);
    } else if InScan(w.pc) {
      ScanDescends(c, w, g, started, w', g');
    } else if InNapping(w.pc) {
      NapMoves(w, g, started, w', g');
      MovedOn(w, g, w', g', started);
    } else if InTest(w.pc) {
      TestMoves(w, g, started, w', g');
      MovedOn(w, g, w', g', started);
    } else {
      PlainDescends(w, g, started, w', g');
    }
  }

  // ---- How far the main thread has to go ----

  /** Steps until the search is started, the creation of the workers included. */
  function StartRank(c: Config, m: Main): nat {
    if Started(m.pc) then 0
    else 7 * (if c.Workers() >= m.created then c.Workers() - m.created else 0) + StartBase(m.pc)
  }

  function StartBase(pc: MainPC): nat {
    match pc
    case EnqueueRoot => 30
    case BirthLock => 25 case BirthLoad => 24 case BirthStore => 23 case BirthUnlock => 22
    case CreateTest => 21 case Create => 20
    case OpenLock => 10 case OpenSet => 9 case OpenUnlock => 8 case OneLock => 7 case OneLoad => 6 case OneStore => 5
    case _ => 0
  }

  /** With everybody asleep: steps to the next all-asleep test, through the wait if need be. Otherwise:
      steps until main gives back the lock it holds. */
  function MainRank(pc: MainPC, asleep: bool): nat {
    if asleep then
      match pc
      case Sleep2Unlock => 26 case Sleep2Test => 25 case Errors2Lock => 24 case Errors2Read => 23
      case Errors2Unlock => 22 case Errors2Test => 21
      case MainWaitLock => 20 case MainWaitEnter => 19 case MainWaiting => 18 case MainWaitUnlock => 17
      case OneUnlock => 17
      case Top => 16 case Errors1Lock => 15 case Errors1Read => 14 case Errors1Unlock => 13
      case Sleep1Lock => 12 case Sleep1Read => 11 case Sleep1Unlock => 10 case Compare => 9
      case Sleep2Lock => 8 case Sleep2Read => 7
      case _ => 0
    else if pc.Errors1Read? || pc.Sleep1Read? || pc.Sleep2Read? || pc.Errors2Read? then 2
    else if pc.OneUnlock? || pc.Errors1Unlock? || pc.Sleep1Unlock? || pc.Sleep2Unlock? || pc.Errors2Unlock?
         || pc.MainWaitEnter? || pc.MainWaitUnlock? then 1
    else 0
  }

  predicate AllAsleep(s: State) {
    forall t :: 0 <= t < |s.workers| ==> s.workers[t].pc.Asleep?
  }

  /** Closer to the end, in this order of importance: started, work done, main at its test. */
  predicate Closer(c: Config, s: State, s': State) {
    || StartRank(c, s'.main) < StartRank(c, s.main)
    || (StartRank(c, s'.main) == StartRank(c, s.main)
        && (WorkRank(s') < WorkRank(s)
            || (WorkRank(s') == WorkRank(s)
                && MainRank(s'.main.pc, AllAsleep(s')) < MainRank(s.main.pc, AllAsleep(s)))))
  }

  /** Main is before the start or in its loop, and blocked by nothing but a lock. */
  lemma MainBlockedByLock(c: Config, m: Main, g: Globals)
    requires MainNext(c, m, g).MainBlocked? && !Ending(m.pc)
    ensures MainOp(m.pc).TakeOf? && MainOp(m.pc).l in g.locks
  {
  }

  lemma WorkerBlockedByLock(c: Config, w: Worker, g: Globals, t: nat, started: bool)
    requires WorkerNext(c, w, g, t, Ok).Blocked? && WorkerShape(w, g) && Busy(w, started)
    ensures Op(w.pc).TakeOf? && Op(w.pc).l in g.locks
  {
  }

  lemma StartDescends(c: Config, m: Main, g: Globals, m': Main, g': Globals)
    requires MainShape(c, m) && !Started(m.pc) && MainNext(c, m, g) == MainMoved(m', g')
    ensures StartRank(c, m') < StartRank(c, m)
  {
    hide CreateNext, OpenNext, CompareNext, DecideNext, EndNext;
    if !MainOp(m.pc).NoLock? {
      StartOpDescends(m);
    } else if Creating(m.pc) {
      CreateDescends(c, m, g, m', g');
    } else {
      OpenDescends(c, m, g, m', g');
    }
  }

  lemma StartOpDescends(m: Main)
    requires !Started(m.pc) && !MainOp(m.pc).NoLock?
    ensures !Started(MainAfterOp(m.pc)) && StartBase(MainAfterOp(m.pc)) < StartBase(m.pc)
  {
  }

  lemma CreateDescends(c: Config, m: Main, g: Globals, m': Main, g': Globals)
    requires MainShape(c, m) && CreateNext(c, m, g) == MainMoved(m', g')
    ensures StartRank(c, m') < StartRank(c, m)
  {
  }

  lemma OpenDescends(c: Config, m: Main, g: Globals, m': Main, g': Globals)
    requires OpenNext(m, g) == MainMoved(m', g')
    ensures StartRank(c, m') < StartRank(c, m)
  {
  }

  lemma HolderIsBusy(w: Worker, l: Lock, started: bool)
    requires Holds(w.pc, l) && !HasFailed(w) && !Doomed(w)
    ensures Busy(w, started)
  {
  }

  /** Main gives its lock back. */
  lemma SectionDescends(c: Config, m: Main, g: Globals, l: Lock, m': Main, g': Globals)
    requires Started(m.pc) && MainHolds(m.pc, l) && MainNext(c, m, g) == MainMoved(m', g')
    ensures Started(m'.pc) && MainRank(m'.pc, false) < MainRank(m.pc, false) && g'.queue == g.queue
  {
    hide CreateNext, OpenNext, CompareNext, DecideNext, EndNext;
    if MainOp(m.pc).NoLock? {
      SectionReads(c, m, g, l, m', g');
    }
  }

  lemma SectionReads(c: Config, m: Main, g: Globals, l: Lock, m': Main, g': Globals)
    requires Started(m.pc) && MainHolds(m.pc, l)
    requires CompareNext(m, g) == MainMoved(m', g') || DecideNext(c, m, g) == MainMoved(m', g')
    ensures Started(m'.pc) && MainRank(m'.pc, false) < MainRank(m.pc, false) && g'.queue == g.queue
  {
  }

  /** Main comes closer to its test, or the test succeeds. */
  lemma FinalDescends(c: Config, m: Main, g: Globals, m': Main, g': Globals)
    requires Started(m.pc) && !Ending(m.pc) && MainNext(c, m, g) == MainMoved(m', g')
    requires g.sleeping == c.limit + 1 && !g.runEnded && !m.allAsleep && !m.allErrors && !m.allFinished
    ensures Started(m'.pc) && g'.queue == g.queue
    ensures m'.allAsleep || MainRank(m'.pc, true) < MainRank(m.pc, true)
  {
    hide CreateNext, OpenNext, EndNext;
  }

  // ---- Somebody can always bring the end closer ----

  /** What is kept on the way: the invariants, and no error. */
  ghost predicate Fine(c: Config, s: State) {
    Inv(c, s) && Honest(s) && Clean(s) && c.limit > 0
  }

  /** A step that leads on. */
  ghost predicate Leading(c: Config, s: State, e: Event) {
    && Next(c, s, e).Some?
    && Fine(c, Next(c, s, e).value)
    && (Next(c, s, e).value.main.allAsleep || Closer(c, s, Next(c, s, e).value))
  }

  lemma {:induction false} NobodyFailed(ws: seq<Worker>, t: nat)
    requires Sum(Failed, ws) == 0 && t < |ws|
    ensures !HasFailed(ws[t])
  {
    SumBounds(Failed, ws, t);
  }

  /** Once main has started the search the gates are open. */
  lemma GatesOpen(c: Config, s: State)
    requires Fine(c, s) && !s.main.allAsleep
    ensures Open(s.g, Started(s.main.pc)) && !Ending(s.main.pc)
    ensures !s.main.allErrors && !s.main.allFinished
    ensures forall t :: 0 <= t < |s.workers| ==> !HasFailed(s.workers[t]) && !Doomed(s.workers[t])
    ensures forall t :: 0 <= t < |s.workers| ==> !s.workers[t].pc.Finished? && WorkerShape(s.workers[t], s.g)
    ensures Started(s.main.pc) ==> forall t :: 0 <= t < |s.workers| ==> !s.workers[t].pc.Unborn?
  {
    hide Locked, NoLostUpdate, NotStranded, Verdicts, WorkerShape, Doomed, HasFailed;
    forall t | 0 <= t < |s.workers|
      ensures !HasFailed(s.workers[t])
    {
      NobodyFailed(s.workers, t);
    }
  }

  /** A busy worker that is not blocked leads on. */
  lemma WorkerLeads(c: Config, s: State, t: nat)
    requires Fine(c, s) && !s.main.allAsleep && t < |s.workers|
    requires Busy(s.workers[t], Started(s.main.pc)) && WorkerNext(c, s.workers[t], s.g, t, Ok).Moved?
    ensures Leading(c, s, WorkerStep(t, Ok))
  {
    hide WorkerNext, Inv, Honest, Clean, Busy, Open, Descends, WorkRank, Next;
    var o := WorkerNext(c, s.workers[t], s.g, t, Ok);
    GatesOpen(c, s);
    WorkerDescends(c, s.workers[t], s.g, t, Started(s.main.pc), o.w, o.g);
    StepOf(c, s, t);
    NextInv(c, s, WorkerStep(t, Ok));
    HonestNext(c, s, WorkerStep(t, Ok));
    RankFalls(s, t, o.w, o.g);
    CleanKept(s, t, o.w, o.g);
  }

  lemma StepOf(c: Config, s: State, t: nat)
    requires t < |s.workers| && WorkerNext(c, s.workers[t], s.g, t, Ok).Moved?
    ensures var o := WorkerNext(c, s.workers[t], s.g, t, Ok);
      Next(c, s, WorkerStep(t, Ok)) == Some(State(s.workers[t := o.w], s.main, o.g))
  {
    hide WorkerNext;
  }

  lemma RankFalls(s: State, t: nat, w': Worker, g': Globals)
    requires t < |s.workers| && Descends(s.workers[t], s.g, w', g', Started(s.main.pc))
    ensures WorkRank(State(s.workers[t := w'], s.main, g')) < WorkRank(s)
  {
    hide WorkerRank, QueueLoad, Doomed;
    RankUpdate(s.workers, Started(s.main.pc), t, w');
  }

  lemma CleanKept(s: State, t: nat, w': Worker, g': Globals)
    requires Clean(s) && t < |s.workers| && Descends(s.workers[t], s.g, w', g', Started(s.main.pc))
    ensures Clean(State(s.workers[t := w'], s.main, g'))
  {
    hide WorkerRank, QueueLoad, Doomed;
  }

  lemma MainStepOf(c: Config, s: State)
    requires MainNext(c, s.main, s.g).MainMoved?
    ensures var o := MainNext(c, s.main, s.g);
      Next(c, s, MainStep) == Some(State(Spawn(s.workers, s.main), o.m, o.g))
  {
    hide MainNext;
  }

  /** A step of main keeps what is kept on the way. */
  lemma MainKeepsFine(c: Config, s: State)
    requires Fine(c, s) && MainNext(c, s.main, s.g).MainMoved?
    ensures Fine(c, Next(c, s, MainStep).value)
  {
    hide MainNext, Inv, Honest, Next, Doomed;
    MainStepOf(c, s);
    NextInv(c, s, MainStep);
    HonestNext(c, s, MainStep);
    var o := MainNext(c, s.main, s.g);
    ErrorsStay(c, s, o.m, o.g);
    forall t | 0 <= t < |s.workers|
      ensures !Doomed(Spawn(s.workers, s.main)[t])
    {
      SpawnedCalm(s, t);
    }
  }

  lemma ErrorsStay(c: Config, s: State, m': Main, g': Globals)
    requires Inv(c, s) && MainNext(c, s.main, s.g) == MainMoved(m', g')
    ensures g'.errors == s.g.errors && g'.counter == s.g.counter
  {
    hide MainNext, Inv;
    MainEffectOf(c, s, m', g');
  }

  lemma SpawnedCalm(s: State, t: nat)
    requires t < |s.workers| && !Doomed(s.workers[t])
    ensures !Doomed(Spawn(s.workers, s.main)[t])
  {
  }

  lemma StartLeads(c: Config, s: State)
    requires Fine(c, s) && !Started(s.main.pc) && MainNext(c, s.main, s.g).MainMoved?
    ensures Leading(c, s, MainStep)
  {
    hide MainNext, Inv, Fine, Next, StartRank, WorkRank, MainRank;
    ShapeOf(c, s);
    var o := MainNext(c, s.main, s.g);
    MainStepOf(c, s);
    MainKeepsFine(c, s);
    StartDescends(c, s.main, s.g, o.m, o.g);
  }

  lemma ShapeOf(c: Config, s: State)
    requires Fine(c, s)
    ensures MainShape(c, s.main)
  {
    hide Locked, NoLostUpdate, NotStranded, Verdicts, Counted, WorkerShape, Honest, Clean;
  }

  /** Main steps after the start touch neither the workers nor their work. */
  lemma SameWork(s: State, m': Main, g': Globals)
    requires Started(s.main.pc) && Started(m'.pc) && g'.queue == s.g.queue
    ensures Spawn(s.workers, s.main) == s.workers
    ensures WorkRank(State(s.workers, m', g')) == WorkRank(s)
    ensures AllAsleep(State(s.workers, m', g')) <==> AllAsleep(s)
  {
  }

  lemma SectionLeads(c: Config, s: State, l: Lock)
    requires Fine(c, s) && !AllAsleep(s)
    requires Started(s.main.pc) && MainHolds(s.main.pc, l) && MainNext(c, s.main, s.g).MainMoved?
    ensures Leading(c, s, MainStep)
  {
    hide MainNext, Fine, Next, WorkRank, MainRank, Started, MainHolds, AllAsleep;
    var o := MainNext(c, s.main, s.g);
    MainStepOf(c, s);
    MainKeepsFine(c, s);
    SectionDescends(c, s.main, s.g, l, o.m, o.g);
    SameWork(s, o.m, o.g);
  }

  /** With everybody asleep the counter has reached the limit plus 1, and no lock is held but by main. */
  lemma AllCounted(c: Config, s: State)
    requires Fine(c, s) && Started(s.main.pc) && AllAsleep(s)
    ensures s.g.sleeping == c.limit + 1
    ensures forall l :: l in s.g.locks ==> MainHolds(s.main.pc, l)
  {
    hide NoLostUpdate, NotStranded, Verdicts, WorkerShape;
    SumAll(s.workers);
    forall l | l in s.g.locks
      ensures MainHolds(s.main.pc, l)
    {
      assert OwnedBy(s.g, l, s.g.locks[l]);
    }
  }

  lemma {:induction false} SumAll(ws: seq<Worker>)
    requires forall t :: 0 <= t < |ws| ==> ws[t].pc.Asleep?
    ensures Sum(Naps, ws) == |ws|
  {
    if ws != [] {
      assert forall t :: 0 <= t < |ws[1..]| ==> ws[1..][t] == ws[t + 1];
      SumAll(ws[1..]);
    }
  }

  lemma MainTakesOutside(m: Main, l: Lock)
    requires MainHolds(m.pc, l)
    ensures !MainOp(m.pc).TakeOf?
  {
  }

  lemma FinalLeads(c: Config, s: State)
    requires Fine(c, s) && !s.main.allAsleep && Started(s.main.pc) && AllAsleep(s)
    ensures Leading(c, s, MainStep)
  {
    hide MainNext, Fine, Next, WorkRank, MainRank, Started, MainHolds, AllAsleep, Ending;
    GatesOpen(c, s);
    AllCounted(c, s);
    if MainNext(c, s.main, s.g).MainBlocked? {
      MainBlockedByLock(c, s.main, s.g);
      MainTakesOutside(s.main, MainOp(s.main.pc).l);
    }
    var o := MainNext(c, s.main, s.g);
    MainStepOf(c, s);
    MainKeepsFine(c, s);
    FinalDescends(c, s.main, s.g, o.m, o.g);
    SameWork(s, o.m, o.g);
  }

  /** Where a lock is held, a holder leads on. */
  lemma HolderLeads(c: Config, s: State, l: Lock) returns (e: Event)
    requires Fine(c, s) && !s.main.allAsleep && l in s.g.locks
    requires Started(s.main.pc) ==> !AllAsleep(s)
    requires !Started(s.main.pc) ==> MainNext(c, s.main, s.g).MainBlocked?
    ensures Leading(c, s, e)
  {
    hide MainNext, WorkerNext, Inv, Next, Leading, Holds, MainHolds, Busy, Started, Open, AllAsleep;
    SomeHolderMoves(c, s, l);
    if k, t: nat :| t < |s.workers| && Holds(s.workers[t].pc, k) && Next(c, s, WorkerStep(t, Ok)).Some? {
      GatesOpen(c, s);
      HolderIsBusy(s.workers[t], k, Started(s.main.pc));
      Moves(c, s, t);
      WorkerLeads(c, s, t);
      e := WorkerStep(t, Ok);
    } else {
      var k :| MainHolds(s.main.pc, k);
      MainMoves(c, s);
      SectionLeads(c, s, k);
      e := MainStep;
    }
  }

  lemma Moves(c: Config, s: State, t: nat)
    requires t < |s.workers| && Next(c, s, WorkerStep(t, Ok)).Some?
    ensures WorkerNext(c, s.workers[t], s.g, t, Ok).Moved?
  {
    hide WorkerNext;
  }

  lemma MainMoves(c: Config, s: State)
    requires Next(c, s, MainStep).Some?
    ensures MainNext(c, s.main, s.g).MainMoved?
  {
    hide MainNext;
  }

  /** From every state without an error some step leads on. */
  lemma SomeoneLeads(c: Config, s: State) returns (e: Event)
    requires Fine(c, s) && !s.main.allAsleep
    ensures Leading(c, s, e)
  {
    hide MainNext, WorkerNext, Next, Fine, Leading, Started, Busy, HasFailed, Doomed, WorkerShape, Open;
    GatesOpen(c, s);
    if !Started(s.main.pc) {
      if MainNext(c, s.main, s.g).MainMoved? {
        StartLeads(c, s);
        e := MainStep;
      } else {
        MainBlockedByLock(c, s.main, s.g);
        e := HolderLeads(c, s, MainOp(s.main.pc).l);
      }
    } else if AllAsleep(s) {
      FinalLeads(c, s);
      e := MainStep;
    } else {
      var t :| 0 <= t < |s.workers| && !s.workers[t].pc.Asleep?;
      AwakeIsBusy(s.workers[t]);
      if WorkerNext(c, s.workers[t], s.g, t, Ok).Moved? {
        WorkerLeads(c, s, t);
        e := WorkerStep(t, Ok);
      } else {
        WorkerBlockedByLock(c, s.workers[t], s.g, t, true);
        e := HolderLeads(c, s, Op(s.workers[t].pc).l);
      }
    }
  }

  lemma AwakeIsBusy(w: Worker)
    requires !w.pc.Asleep? && !w.pc.Unborn? && !w.pc.Finished? && !HasFailed(w) && !Doomed(w)
    ensures Busy(w, true)
  {
  }

  // ---- Every run without an error can be finished ----

  lemma {:induction false} Finish(c: Config, schedule: seq<Event>, s: State) returns (more: seq<Event>, s': State)
    requires Run(c, schedule) == Some(s) && Fine(c, s)
    ensures Run(c, schedule + more) == Some(s') && s'.main.allAsleep
    decreases StartRank(c, s.main), WorkRank(s), MainRank(s.main.pc, AllAsleep(s))
  {
    hide Fine, Next, StartRank, WorkRank, MainRank, AllAsleep;
    more, s' := [], s;
    assert schedule + [] == schedule;
    if !s.main.allAsleep {
      var e := SomeoneLeads(c, s);
      var next := Next(c, s, e).value;
      assert (schedule + [e])[..|schedule|] == schedule;
      if next.main.allAsleep {
        more, s' := [e], next;
      } else {
        var rest;
        rest, s' := Finish(c, schedule + [e], next);
        more := [e] + rest;
        assert schedule + more == schedule + [e] + rest;
      }
    }
  }

  /** Whatever has happened so far, if nobody has met an error the run can go on to a successful
      all-asleep test, and then the search is complete. */
  lemma CanAlwaysFinish(c: Config, schedule: seq<Event>, s: State) returns (more: seq<Event>, s': State)
    requires Run(c, schedule) == Some(s) && Clean(s) && c.limit > 0
    ensures Run(c, schedule + more) == Some(s') && s'.main.allAsleep && Settled(c, s')
  {
    hide Run, Inv, Honest, Clean, Settled;
    RunInv(c, schedule);
    RunHonest(c, schedule);
    more, s' := Finish(c, schedule, s);
    SleepTestIsExact(c, schedule + more, s');
  }

  /** For every tree, every search string and every positive number of threads there is a complete run. */
  lemma SomeRunFinishes(c: Config) returns (schedule: seq<Event>, s: State)
    requires c.limit > 0
    ensures Run(c, schedule) == Some(s) && s.main.allAsleep && Settled(c, s)
  {
    hide Settled;
    assert Clean(Init(c));
    schedule, s := CanAlwaysFinish(c, [], Init(c));
    assert [] + schedule == schedule;
  }
}
