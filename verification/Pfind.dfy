/**
 The parallel directory search as a step system: `threads_limit` workers and the main thread,
 interleaved in any order, one step for each access to shared memory and each lock operation.

 A condition wait releases its mutex and may end at any later moment (signalled or spurious) by
 taking the mutex again, so signals and broadcasts need no state of their own.
 */
module Pfind {
  import opened Basics
  import opened FileTree

  /** The three arguments of the program. */
  datatype Config = Config(root: Job, needle: string, limit: int) {
    /** How many workers the creation loop starts. */
    function Workers(): nat {
      if limit > 0 then limit else 0
    }
  }

  // ---- Threads ----

  datatype Lock = StartMutex | SleepMutex | QueueMutex | ErrorsLock | CounterLock

  datatype Owner = ByMain | ByWorker(t: nat)

  /** The locks that are held, and by whom. */
  type LockTable = map<Lock, Owner>

  /** Where a worker is in `thread_routine` or `folder_scan`: the step it takes next. */
  datatype PC =
    | Unborn
    | StartLock | StartTest | StartEnter | StartWait | StartUnlock          // lines 234-238
    | LoopTest                                                              // line 243
    | GateLock | GateTest | GateEnter | GateWait | GateUnlock               // lines 248-252
    | TakeLock | Take | TakeUnlock | TakeTest                               // lines 255-260
    | OpenDir | ScanTest | ReadEntry | CloseDir                             // lines 351-389, 434-436
    | PutLock | Put | PutUnlock                                             // lines 393-395
    | CastLock | CastUnlock | YieldLock | YieldUnlock                       // lines 399-413
    | CountLock | CountLoad | CountStore | CountUnlock | PrintPath          // lines 422-427
    | FailLock | FailLoad | FailStore | LivingLoad | LivingStore | FailUnlock | Dead  // lines 268-275
    | NapLock | NapLoad | NapStore | NapUnlock                              // lines 283-286
    | WaitLock | WaitEnter | Asleep                                         // lines 290-293
    | WakeLock | WakeLoad | WakeStore | WakeUnlock | QueueUnlock            // lines 297-302
    | Finished

  /** A worker with its local variables. */
  datatype Worker = Worker(
    pc: PC,
    curr: Option<Job>,      // curr_directory, None for NULL
    rest: seq<Entry>,       // what readdir has not returned yet
    bad: bool,              // res in folder_scan
    path: Path,             // result: the path of the entry just read
    listing: seq<Entry>,    // what that path lists if it is a directory
    tmp: int)               // the value loaded by an increment or a decrement

  datatype MainPC =
    | EnqueueRoot | CreateTest | Create                                     // lines 311-314
    | BirthLock | BirthLoad | BirthStore | BirthUnlock                      // lines 317-319
    | OpenLock | OpenSet | OpenUnlock                                       // lines 324-327
    | OneLock | OneLoad | OneStore | OneUnlock                              // lines 331-334
    | Top                                                                   // line 474
    | Errors1Lock | Errors1Read | Errors1Unlock                             // lines 207-209
    | Sleep1Lock | Sleep1Read | Sleep1Unlock | Compare                      // lines 213-222
    | Sleep2Lock | Sleep2Read | Sleep2Unlock | Sleep2Test                   // lines 187-198
    | Errors2Lock | Errors2Read | Errors2Unlock | Errors2Test               // lines 169-180, 224
    | MainWaitLock | MainWaitEnter | MainWaiting | MainWaitUnlock           // lines 486-488
    | SetEnded | Report | Exited                                            // lines 493-501

  datatype Main = Main(
    pc: MainPC,
    created: nat,           // dbzy in initiate_threads
    tmp: int,
    errored: int,           // errored_threads
    sleepers: int,          // sleeping_threads
    allFinished: bool,      // all_threads_finished
    allAsleep: bool,        // check_thread_sleeping() returned 1
    allErrors: bool,        // check_thread_errors() returned 1
    reported: int,          // the number printed at the end
    exitCode: int)

  // ---- The shared state ----

  /** The global variables. */
  datatype Globals = Globals(
    locks: LockTable,
    queue: seq<Job>,
    canStart: bool,
    runEnded: bool,
    sleeping: int,          // sleeping_threads_available
    living: int,            // living_threads
    errors: int,            // thread_errors_cntr
    counter: int,
    allError: bool,         // all_threads_are_error
    output: seq<Path>,      // the paths printed so far
    visited: seq<Path>)     // the directories scanned to the end without an error

  datatype State = State(workers: seq<Worker>, main: Main, g: Globals)

  function Init(c: Config): State {
    State(seq(c.Workers(), _ => Worker(Unborn, None, [], false, [], [], 0)),
          Main(EnqueueRoot, 0, 0, 0, 0, false, false, false, 0, 0),
          Globals(map[], [], false, false, 0, 0, 0, 0, false, [], []))
  }

  /** How the environment answers: the outcome of `opendir` and of `lstat`.
      When `lstat` fails the code goes on with the metadata of an earlier call, so the entry is
      treated as a directory or as a file at random; as a directory it lists anything. */
  datatype Answer =
    | Ok
    | OpendirFails
    | LstatFails(asDirectory: bool, listing: seq<Entry>)

  datatype Event = MainStep | WorkerStep(t: nat, answer: Answer)

  // ---- The workers ----

  /** The steps that only take or give back a lock, and where they lead. */
  datatype LockOp = TakeOf(l: Lock) | GiveOf(l: Lock) | NoLock

  function Op(pc: PC): LockOp {
    match pc
    case StartLock | StartWait => TakeOf(StartMutex)
    case StartEnter | StartUnlock => GiveOf(StartMutex)
    case GateLock | GateWait | NapLock | WakeLock => TakeOf(SleepMutex)
    case GateEnter | GateUnlock | NapUnlock | WakeUnlock => GiveOf(SleepMutex)
    case TakeLock | PutLock | CastLock | YieldLock | WaitLock | Asleep => TakeOf(QueueMutex)
    case TakeUnlock | PutUnlock | CastUnlock | YieldUnlock | WaitEnter | QueueUnlock => GiveOf(QueueMutex)
    case CountLock => TakeOf(CounterLock)
    case CountUnlock => GiveOf(CounterLock)
    case FailLock => TakeOf(ErrorsLock)
    case FailUnlock => GiveOf(ErrorsLock)
    case _ => NoLock
  }

  function AfterOp(pc: PC): PC {
    match pc
    case StartLock | StartWait => StartTest
    case StartEnter => StartWait
    case StartUnlock => LoopTest
    case GateLock | GateWait => GateTest
    case GateEnter => GateWait
    case GateUnlock => TakeLock
    case TakeLock => Take
    case TakeUnlock => TakeTest
    case PutLock => Put
    case PutUnlock => CastLock
    case CastLock => CastUnlock
    case CastUnlock => YieldLock
    case YieldLock => YieldUnlock
    case YieldUnlock => ScanTest
    case CountLock => CountLoad
    case CountUnlock => PrintPath
    case FailLock => FailLoad
    case FailUnlock => Dead
    case NapLock => NapLoad
    case NapUnlock => WaitLock
    case WaitLock => WaitEnter
    case WaitEnter => Asleep
    case Asleep => WakeLock
    case WakeLock => WakeLoad
    case WakeUnlock => QueueUnlock
    case QueueUnlock => LoopTest
    case _ => pc
  }

  /** What a step does to the worker that takes it and to the globals. */
  datatype Outcome = Blocked | Moved(w: Worker, g: Globals)

  /** The next step of worker `t`, from its own state and the globals. */
  function WorkerNext(c: Config, w: Worker, g: Globals, t: nat, a: Answer): Outcome {
    match Op(w.pc)
    case TakeOf(l) =>
      if l in g.locks then Blocked
      else Moved(w.(pc := AfterOp(w.pc)), g.(locks := g.locks[l := ByWorker(t)]))
    case GiveOf(l) => Moved(w.(pc := AfterOp(w.pc)), g.(locks := g.locks - {l}))
    case NoLock =>
      if InScan(w.pc) then ScanNext(c, w, g, a)
      else if InFailing(w.pc) then FailingNext(w, g)
      else if InNapping(w.pc) then NappingNext(w, g)
      else if InTest(w.pc) then TestNext(w, g)
      else PlainNext(w, g)
  }

  predicate InScan(pc: PC) {
    pc.OpenDir? || pc.ScanTest? || pc.ReadEntry? || pc.CloseDir?
  }

  predicate InFailing(pc: PC) {
    pc.FailLoad? || pc.FailStore? || pc.LivingLoad? || pc.LivingStore?
  }

  predicate InNapping(pc: PC) {
    pc.NapLoad? || pc.NapStore? || pc.WakeLoad? || pc.WakeStore?
  }

  predicate InTest(pc: PC) {
    pc.StartTest? || pc.LoopTest? || pc.GateTest? || pc.TakeTest?
  }

  /** Lines 235, 243, 249 and 260. */
  function TestNext(w: Worker, g: Globals): Outcome {
    match w.pc
    case StartTest => Moved(w.(pc := if g.canStart then StartUnlock else StartEnter), g)
    case LoopTest => Moved(w.(pc := if g.runEnded then Finished else GateLock), g)
    case GateTest => Moved(w.(pc := if g.sleeping == 0 then GateEnter else GateUnlock), g)
    case TakeTest => Moved(w.(pc := if w.curr.Some? then OpenDir else NapLock), g)
    case _ => Blocked
  }

  /** The queue, the counter and the printed lines. */
  function PlainNext(w: Worker, g: Globals): Outcome {
    match w.pc
    case Take =>
      if g.queue == [] then Moved(w.(pc := TakeUnlock, curr := None), g)
      else Moved(w.(pc := TakeUnlock, curr := Some(g.queue[0])), g.(queue := g.queue[1..]))
    case Put => Moved(w.(pc := PutUnlock), g.(queue := g.queue + [Job(w.path, w.listing)]))
    case CountLoad => Moved(w.(pc := CountStore, tmp := g.counter), g)
    case CountStore => Moved(w.(pc := CountUnlock), g.(counter := w.tmp + 1))
    case PrintPath => Moved(w.(pc := ScanTest), g.(output := g.output + [w.path]))
    case _ => Blocked
  }

  /** Lines 269-270. Every increment and decrement is a load and a store. */
  function FailingNext(w: Worker, g: Globals): Outcome {
    match w.pc
    case FailLoad => Moved(w.(pc := FailStore, tmp := g.errors), g)
    case FailStore => Moved(w.(pc := LivingLoad), g.(errors := w.tmp + 1))
    case LivingLoad => Moved(w.(pc := LivingStore, tmp := g.living), g)
    case LivingStore => Moved(w.(pc := FailUnlock), g.(living := w.tmp - 1))
    case _ => Blocked
  }

  /** Lines 284 and 298. */
  function NappingNext(w: Worker, g: Globals): Outcome {
    match w.pc
    case NapLoad => Moved(w.(pc := NapStore, tmp := g.sleeping), g)
    case NapStore => Moved(w.(pc := NapUnlock), g.(sleeping := w.tmp + 1))
    case WakeLoad => Moved(w.(pc := WakeStore, tmp := g.sleeping), g)
    case WakeStore => Moved(w.(pc := WakeUnlock), g.(sleeping := w.tmp - 1))
    case _ => Blocked
  }

  function ScanNext(c: Config, w: Worker, g: Globals, a: Answer): Outcome {
    if w.curr.None? then Blocked else
    match w.pc
    case OpenDir =>
      if a.OpendirFails? then Moved(w.(pc := FailLock), g)
      else Moved(w.(pc := ScanTest, rest := w.curr.value.entries, bad := false), g)
    case ScanTest => Moved(w.(pc := if g.runEnded then CloseDir else ReadEntry), g)
    case ReadEntry =>
      if w.rest == [] then Moved(w.(pc := CloseDir), g) else Moved(AfterRead(c, w, a), g)
    case CloseDir =>
      if w.bad then Moved(w.(pc := FailLock), g)
      else Moved(w.(pc := LoopTest), g.(visited := g.visited + [w.curr.value.path]))
    case _ => Blocked
  }

  /** One entry has been read: lines 364-389 and 417-419. */
  function AfterRead(c: Config, w: Worker, a: Answer): Worker
    requires w.rest != [] && w.curr.Some?
  {
    var e := w.rest[0];
    var isDirectory := if a.LstatFails? then a.asDirectory else e.Dir?;
    var next := if IsDots(e.name) then ScanTest
                else if isDirectory then PutLock
                else if Contains(e.name, c.needle) then CountLock else ScanTest;
    w.(pc := next,
       rest := w.rest[1..],
       bad := w.bad || a.LstatFails?,
       path := w.curr.value.path + [e.name],
       listing := if a.LstatFails? then a.listing else if e.Dir? then e.entries else [])
  }

  // ---- The main thread ----

  function MainOp(pc: MainPC): LockOp {
    match pc
    case BirthLock | Errors1Lock | Errors2Lock => TakeOf(ErrorsLock)
    case BirthUnlock | Errors1Unlock | Errors2Unlock => GiveOf(ErrorsLock)
    case OpenLock => TakeOf(StartMutex)
    case OpenUnlock => GiveOf(StartMutex)
    case OneLock | Sleep1Lock | Sleep2Lock | MainWaitLock | MainWaiting => TakeOf(SleepMutex)
    case OneUnlock | Sleep1Unlock | Sleep2Unlock | MainWaitEnter | MainWaitUnlock => GiveOf(SleepMutex)
    case _ => NoLock
  }

  function MainAfterOp(pc: MainPC): MainPC {
    match pc
    case BirthLock => BirthLoad
    case BirthUnlock => CreateTest
    case OpenLock => OpenSet
    case OpenUnlock => OneLock
    case OneLock => OneLoad
    case OneUnlock => Top
    case Errors1Lock => Errors1Read
    case Errors1Unlock => Sleep1Lock
    case Sleep1Lock => Sleep1Read
    case Sleep1Unlock => Compare
    case Sleep2Lock => Sleep2Read
    case Sleep2Unlock => Sleep2Test
    case Errors2Lock => Errors2Read
    case Errors2Unlock => Errors2Test
    case MainWaitLock => MainWaitEnter
    case MainWaitEnter => MainWaiting
    case MainWaiting => MainWaitUnlock
    case MainWaitUnlock => Top
    case _ => pc
  }

  datatype MainOutcome = MainBlocked | MainMoved(m: Main, g: Globals)

  function MainNext(c: Config, m: Main, g: Globals): MainOutcome {
    match MainOp(m.pc)
    case TakeOf(l) =>
      if l in g.locks then MainBlocked
      else MainMoved(m.(pc := MainAfterOp(m.pc)), g.(locks := g.locks[l := ByMain]))
    case GiveOf(l) => MainMoved(m.(pc := MainAfterOp(m.pc)), g.(locks := g.locks - {l}))
    case NoLock =>
      if Creating(m.pc) then CreateNext(c, m, g)
      else if Opening(m.pc) then OpenNext(m, g)
      else if Comparing(m.pc) then CompareNext(m, g)
      else if Ending(m.pc) then EndNext(m, g)
      else DecideNext(c, m, g)
  }

  predicate Creating(pc: MainPC) {
    || pc.EnqueueRoot? || pc.CreateTest? || pc.Create?
    || pc.BirthLock? || pc.BirthLoad? || pc.BirthStore? || pc.BirthUnlock?
  }

  predicate Opening(pc: MainPC) {
    pc.OpenSet? || pc.OneLoad? || pc.OneStore?
  }

  predicate Comparing(pc: MainPC) {
    pc.Top? || pc.Errors1Read? || pc.Sleep1Read? || pc.Compare?
  }

  /** The wait loop is over. */
  predicate Ending(pc: MainPC) {
    pc.SetEnded? || pc.Report? || pc.Exited?
  }

  /** `initiate_threads` up to line 321. The `Create` step also starts worker `m.created`. */
  function CreateNext(c: Config, m: Main, g: Globals): MainOutcome {
    match m.pc
    case EnqueueRoot => MainMoved(m.(pc := CreateTest), g.(queue := g.queue + [c.root]))
    case CreateTest => MainMoved(m.(pc := if m.created < c.limit then Create else OpenLock), g)
    case Create => MainMoved(m.(pc := BirthLock, created := m.created + 1), g)
    case BirthLoad => MainMoved(m.(pc := BirthStore, tmp := g.living), g)
    case BirthStore => MainMoved(m.(pc := BirthUnlock), g.(living := m.tmp + 1))
    case _ => MainBlocked
  }

  /** `initiate_threads` from line 324 on. */
  function OpenNext(m: Main, g: Globals): MainOutcome {
    match m.pc
    case OpenSet => MainMoved(m.(pc := OpenUnlock), g.(canStart := true))
    case OneLoad => MainMoved(m.(pc := OneStore, tmp := g.sleeping), g)
    case OneStore => MainMoved(m.(pc := OneUnlock), g.(sleeping := m.tmp + 1))
    case _ => MainBlocked
  }

  /** The head of the wait loop and `check_threads_running` up to line 222. */
  function CompareNext(m: Main, g: Globals): MainOutcome {
    match m.pc
    case Top => MainMoved(m.(pc := if g.runEnded then SetEnded else Errors1Lock), g)
    case Errors1Read => MainMoved(m.(pc := Errors1Unlock, errored := g.errors), g)
    case Sleep1Read => MainMoved(m.(pc := Sleep1Unlock, sleepers := g.sleeping), g)
    case Compare =>
      MainMoved(m.(pc := Sleep2Lock, allFinished := m.errored > 0 && m.sleepers == g.living + 1), g)
    case _ => MainBlocked
  }

  /** Line 224: `check_thread_sleeping() || check_thread_errors() || all_threads_finished`. */
  function DecideNext(c: Config, m: Main, g: Globals): MainOutcome {
    match m.pc
    case Sleep2Read => MainMoved(m.(pc := Sleep2Unlock, allAsleep := g.sleeping == c.limit + 1), g)
    case Sleep2Test => MainMoved(m.(pc := if m.allAsleep then SetEnded else Errors2Lock), g)
    case Errors2Read =>
      var all := g.errors == c.limit;
      MainMoved(m.(pc := Errors2Unlock, allErrors := all), g.(allError := g.allError || all))
    case Errors2Test =>
      MainMoved(m.(pc := if m.allErrors || m.allFinished then SetEnded else MainWaitLock), g)
    case _ => MainBlocked
  }

  /** Lines 493-502. */
  function EndNext(m: Main, g: Globals): MainOutcome {
    match m.pc
    case SetEnded => MainMoved(m.(pc := Report), g.(runEnded := true))
    case Report => MainMoved(m.(pc := Exited, reported := g.counter, exitCode := One(g.allError)), g)
    case _ => MainBlocked
  }

  // ---- Runs ----

  /** The workers after a main step: only `pthread_create` touches them. */
  function Spawn(ws: seq<Worker>, m: Main): seq<Worker> {
    if m.pc.Create? && m.created < |ws| then ws[m.created := ws[m.created].(pc := StartLock)] else ws
  }

  /** One step, None when the chosen thread cannot take it. */
  function Next(c: Config, s: State, e: Event): Option<State> {
    match e
    case MainStep =>
      (match MainNext(c, s.main, s.g)
       case MainBlocked => None
       case MainMoved(m, g) => Some(State(Spawn(s.workers, s.main), m, g)))
    case WorkerStep(t, a) =>
      if t >= |s.workers| then None else
      match WorkerNext(c, s.workers[t], s.g, t, a)
      case Blocked => None
      case Moved(w, g) => Some(State(s.workers[t := w], s.main, g))
  }

  /** The state after a schedule, None when some step of it is not possible. */
  function Run(c: Config, schedule: seq<Event>): Option<State> {
    if schedule == [] then Some(Init(c))
    else
      var n := |schedule| - 1;
      var s := Run(c, schedule[..n]);
      if s.None? then None else Next(c, s.value, schedule[n])
  }
}
