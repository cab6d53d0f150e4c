/** What a search finds when directories cannot be opened: exactly what does not lie below these. */
module PfindLosses {
  import opened Basics
  import opened FileTree
  import opened Pfind
  import opened PfindInvariant
  import opened PfindMain
  import opened PfindConservation
  import opened PfindTheorems

  /** From the failure of a scan to the end of the thread. */
  predicate InFailure(pc: PC) {
    || pc.FailLock? || pc.FailLoad? || pc.FailStore? || pc.LivingLoad? || pc.LivingStore?
    || pc.FailUnlock? || pc.Dead?
  }

  /** What lies in a directory whose `opendir` failed, itself included. The worker ends, so each worker
      loses at most one. */
  function LostMass(needle: string, m: Measure, w: Worker): nat {
    if InFailure(w.pc) && w.curr.Some? then JobMass(needle, m, w.curr.value) else 0
  }

  function LostSum(needle: string, m: Measure, ws: seq<Worker>): nat {
    if ws == [] then 0 else LostMass(needle, m, ws[0]) + LostSum(needle, m, ws[1..])
  }

  /** No `lstat` has misled the worker. */
  predicate Unspoilt(w: Worker) {
    !(Scanning(w.pc) && w.bad) && (InFailure(w.pc) ==> w.curr.Some?)
  }

  lemma {:induction false} LostUpdate(needle: string, m: Measure, ws: seq<Worker>, t: nat, w: Worker)
    requires t < |ws|
    ensures LostSum(needle, m, ws[t := w])
         == LostSum(needle, m, ws) - LostMass(needle, m, ws[t]) + LostMass(needle, m, w)
  {
    if t == 0 {
      assert ws[t := w][1..] == ws[1..];
    } else {
      assert ws[t := w][1..] == ws[1..][t - 1 := w];
      LostUpdate(needle, m, ws[1..], t - 1, w);
    }
  }

  lemma {:induction false} NothingLost(needle: string, m: Measure, ws: seq<Worker>)
    requires forall t :: 0 <= t < |ws| ==> !InFailure(ws[t].pc)
    ensures LostSum(needle, m, ws) == 0
  {
    if ws != [] {
      assert forall t :: 0 <= t < |ws[1..]| ==> ws[1..][t] == ws[t + 1];
      NothingLost(needle, m, ws[1..]);
    }
  }

  // ---- One worker step ----

  /** Accounted for, queued, held and lost stay the same together; only a scan that breaks off because
      the run has ended makes them less. */
  predicate LossEffect(needle: string, m: Measure, w: Worker, g: Globals, w': Worker, g': Globals) {
    && Unspoilt(w')
    && LocalMass(needle, m, w', g') + LostMass(needle, m, w') <= LocalMass(needle, m, w, g) + LostMass(needle, m, w)
    && ((w.pc.CloseDir? ==> w.rest == []) ==>
          LocalMass(needle, m, w', g') + LostMass(needle, m, w') == LocalMass(needle, m, w, g) + LostMass(needle, m, w))
  }

  /** A failing worker leaves everything but the counters of failures alone. */
  lemma FailureStep(c: Config, w: Worker, g: Globals, t: nat, a: Answer, w': Worker, g': Globals)
    requires InFailure(w.pc) && WorkerNext(c, w, g, t, a) == Moved(w', g')
    ensures InFailure(w'.pc) && w'.curr == w.curr && !Holding(w) && !Holding(w')
    ensures g'.counter == g.counter && g'.output == g.output && g'.visited == g.visited && g'.queue == g.queue
  {
    hide ScanNext, NappingNext, TestNext, PlainNext, FailingNext;
    if Op(w.pc).NoLock? && InFailing(w.pc) {
      FailingStep(w, g, w', g');
    }
    DeadStays(c, w, g, a);
  }

  lemma FailingStep(w: Worker, g: Globals, w': Worker, g': Globals)
    requires FailingNext(w, g) == Moved(w', g')
    ensures InFailure(w'.pc) && w'.curr == w.curr
    ensures g'.counter == g.counter && g'.output == g.output && g'.visited == g.visited && g'.queue == g.queue
  {
  }

  lemma DeadStays(c: Config, w: Worker, g: Globals, a: Answer)
    ensures w.pc.Dead? ==> PlainNext(w, g).Blocked?
  {
  }

  /** The only ways into a failure, without errors of `lstat`. */
  lemma OtherStep(c: Config, w: Worker, g: Globals, t: nat, a: Answer, w': Worker, g': Globals)
    requires !InFailure(w.pc) && Unspoilt(w) && !a.LstatFails? && WorkerNext(c, w, g, t, a) == Moved(w', g')
    ensures !(w.pc.OpenDir? && a.OpendirFails?) ==> Unspoilt(w') && !InFailure(w'.pc) && !Doomed(w')
    ensures g'.errors == g.errors
  {
    hide ScanNext, NappingNext, TestNext, PlainNext, FailingNext, Unspoilt, Doomed, AfterOp;
    if !Op(w.pc).NoLock? {
      OpStays(w);
    } else if InScan(w.pc) {
      ScanStays(c, w, g, a, w', g');
    } else {
      RestStays(w, g, w', g');
    }
  }

  lemma OpStays(w: Worker)
    requires !InFailure(w.pc) && Unspoilt(w)
    ensures var w' := w.(pc := AfterOp(w.pc)); Unspoilt(w') && !InFailure(w'.pc) && !Doomed(w')
  {
  }

  lemma ScanStays(c: Config, w: Worker, g: Globals, a: Answer, w': Worker, g': Globals)
    requires !InFailure(w.pc) && Unspoilt(w) && !a.LstatFails? && ScanNext(c, w, g, a) == Moved(w', g')
    ensures !(w.pc.OpenDir? && a.OpendirFails?) ==> Unspoilt(w') && !InFailure(w'.pc) && !Doomed(w')
    ensures g'.errors == g.errors
  {
    hide Contains;
  }

  lemma RestStays(w: Worker, g: Globals, w': Worker, g': Globals)
    requires !InFailure(w.pc) && Unspoilt(w) && InScan(w.pc) == false
    requires NappingNext(w, g) == Moved(w', g') || TestNext(w, g) == Moved(w', g') || PlainNext(w, g) == Moved(w', g')
    ensures Unspoilt(w') && !InFailure(w'.pc) && !Doomed(w') && g'.errors == g.errors
  {
  }

  lemma OpenFails(c: Config, m: Measure, w: Worker, g: Globals, t: nat, w': Worker, g': Globals)
    requires w.pc.OpenDir? && WorkerShape(w, g) && WorkerNext(c, w, g, t, OpendirFails) == Moved(w', g')
    ensures LossEffect(c.needle, m, w, g, w', g')
  {
    hide Mass, JobMass, QueueMass, HitWeight, FolderWeight, Count;
  }

  /** The run has ended in the middle of a scan. */
  lemma BrokenOff(c: Config, m: Measure, w: Worker, g: Globals, t: nat, a: Answer, w': Worker, g': Globals)
    requires w.pc.CloseDir? && WorkerShape(w, g) && Unspoilt(w) && WorkerNext(c, w, g, t, a) == Moved(w', g')
    requires w.rest != []
    ensures LossEffect(c.needle, m, w, g, w', g')
  {
    hide Mass, QueueMass, HitWeight, Count;
    if m.VisitedAt? {
      CountAppend(m.p, g.visited, w.curr.value.path);
    }
  }

  lemma StepLoses(c: Config, m: Measure, w: Worker, g: Globals, t: nat, a: Answer, w': Worker, g': Globals)
    requires WorkerShape(w, g) && FreshLoad(w, g) && g.errors >= 0 && Unspoilt(w)
    requires !a.LstatFails? && WorkerNext(c, w, g, t, a) == Moved(w', g')
    ensures LossEffect(c.needle, m, w, g, w', g')
  {
    hide WorkerNext, WorkerShape, FreshLoad, JobMass, Mass, QueueMass, Count, HitWeight, FolderWeight, Scanning, Doomed;
    if InFailure(w.pc) {
      FailureStep(c, w, g, t, a, w', g');
    } else if w.pc.OpenDir? && a.OpendirFails? {
      OpenFails(c, m, w, g, t, w', g');
    } else if w.pc.CloseDir? && w.rest != [] {
      BrokenOff(c, m, w, g, t, a, w', g');
    } else {
      OtherStep(c, w, g, t, a, w', g');
      WorkerMass(c, m, w, g, t, a, w', g');
    }
  }

  // ---- The whole state ----

  function Total(c: Config, s: State, m: Measure): int {
    Collected(s.g, m) + QueueMass(c.needle, m, s.g.queue) + PendingSum(c.needle, m, s.workers)
    + LostSum(c.needle, m, s.workers) + RootMass(c, s, m)
  }

  /** Nothing is counted twice, and until the end of the run nothing is missing but what was lost. */
  ghost predicate Accounted(c: Config, s: State, m: Measure) {
    && (forall t :: 0 <= t < |s.workers| ==> Unspoilt(s.workers[t]))
    && Total(c, s, m) <= JobMass(c.needle, m, c.root)
    && (!s.g.runEnded ==> Total(c, s, m) == JobMass(c.needle, m, c.root))
  }

  lemma InitAccounted(c: Config, m: Measure)
    ensures Accounted(c, Init(c), m)
  {
    PendingNothing(c.needle, m, Init(c).workers);
    NothingLost(c.needle, m, Init(c).workers);
  }

  lemma WorkerStepAccounts(c: Config, s: State, m: Measure, t: nat, a: Answer, w': Worker, g': Globals)
    requires Inv(c, s) && Accounted(c, s, m) && !a.LstatFails?
    requires t < |s.workers| && WorkerNext(c, s.workers[t], s.g, t, a) == Moved(w', g')
    ensures Accounted(c, State(s.workers[t := w'], s.main, g'), m)
  {
    hide WorkerNext, QueueEffect, NotStranded, Locked, LocalMass, LostMass, PendingMass;
    var w := s.workers[t];
    ErrorsCounted(c, s);
    WorkerEffect(c, w, s.g, t, a, w', g');
    StepLoses(c, m, w, s.g, t, a, w', g');
    PendingUpdate(c.needle, m, s.workers, t, w');
    LostUpdate(c.needle, m, s.workers, t, w');
    LocalMasses(c.needle, m, w, s.g);
    LocalMasses(c.needle, m, w', g');
  }

  lemma ErrorsCounted(c: Config, s: State)
    requires Inv(c, s)
    ensures s.g.errors >= 0
  {
  }

  lemma LocalMasses(needle: string, m: Measure, w: Worker, g: Globals)
    ensures LocalMass(needle, m, w, g) == Collected(g, m) + QueueMass(needle, m, g.queue) + PendingMass(needle, m, w)
  {
  }

  lemma SpawnLost(c: Config, s: State, m: Measure)
    requires Shape(c, s)
    ensures LostSum(c.needle, m, Spawn(s.workers, s.main)) == LostSum(c.needle, m, s.workers)
    ensures (forall t :: 0 <= t < |s.workers| ==> Unspoilt(s.workers[t])) ==>
      forall t :: 0 <= t < |s.workers| ==> Unspoilt(Spawn(s.workers, s.main)[t])
  {
    if Spawn(s.workers, s.main) != s.workers {
      LostUpdate(c.needle, m, s.workers, s.main.created, s.workers[s.main.created].(pc := StartLock));
    }
  }

  lemma MainStepAccounts(c: Config, s: State, m: Measure, m': Main, g': Globals)
    requires Inv(c, s) && Accounted(c, s, m) && MainNext(c, s.main, s.g) == MainMoved(m', g')
    ensures Accounted(c, State(Spawn(s.workers, s.main), m', g'), m)
  {
    hide MainNext, VerdictEffect, Locked, NotStranded, Accounted;
    MainEffect(c, s.main, s.g, m', g');
    MainAccountedKept(c, s, m, m', g');
  }

  lemma MainAccountedKept(c: Config, s: State, m: Measure, m': Main, g': Globals)
    requires Shape(c, s) && Accounted(c, s, m)
    requires MainCountEffect(s.main, s.g, m', g') && MainShapeEffect(c, s.main, s.g, m', g')
    ensures Accounted(c, State(Spawn(s.workers, s.main), m', g'), m)
  {
    hide LostMass, PendingMass, WorkerShape, JobMass, Unspoilt;
    SpawnLost(c, s, m);
    SpawnPending(c, s, m);
    QueueMassAppend(c.needle, m, s.g.queue, c.root);
  }

  // ---- Runs in which lstat never fails ----

  predicate LstatWorks(schedule: seq<Event>) {
    forall i :: 0 <= i < |schedule| && schedule[i].WorkerStep? ==> !schedule[i].answer.LstatFails?
  }

  /** In every such run, whatever cannot be opened: accounted for, queued, in the hands of workers and
      lost below an unopened directory add up to the whole tree until the end, and never exceed it. */
  lemma {:induction false} RunAccounts(c: Config, schedule: seq<Event>, m: Measure)
    requires Run(c, schedule).Some? && LstatWorks(schedule)
    ensures Accounted(c, Run(c, schedule).value, m)
  {
    hide Inv, Next, Accounted;
    if schedule == [] {
      InitAccounted(c, m);
    } else {
      var n := |schedule| - 1;
      RunInv(c, schedule[..n]);
      RunAccounts(c, schedule[..n], m);
      NextAccounts(c, Run(c, schedule[..n]).value, m, schedule[n]);
    }
  }

  lemma NextAccounts(c: Config, s: State, m: Measure, e: Event)
    requires Inv(c, s) && Accounted(c, s, m) && Next(c, s, e).Some? && (e.WorkerStep? ==> !e.answer.LstatFails?)
    ensures Accounted(c, Next(c, s, e).value, m)
  {
    hide Inv, WorkerNext, MainNext, Accounted;
    match e
    case MainStep =>
      var o := MainNext(c, s.main, s.g);
      MainStepAccounts(c, s, m, o.m, o.g);
    case WorkerStep(t, a) =>
      var o := WorkerNext(c, s.workers[t], s.g, t, a);
      WorkerStepAccounts(c, s, m, t, a, o.w, o.g);
  }

  lemma AtMost(c: Config, s: State, m: Measure)
    requires Accounted(c, s, m)
    ensures Collected(s.g, m) <= JobMass(c.needle, m, c.root)
  {
  }

  /** Such a run never finds more than there is: the counter, the printed paths and the scanned
      directories stay within the reference result. */
  lemma NeverTooMuch(c: Config, schedule: seq<Event>, s: State)
    requires Run(c, schedule) == Some(s) && LstatWorks(schedule)
    ensures s.g.counter <= |MatchingFiles(c.needle, c.root.path, c.root.entries)|
    ensures multiset(s.g.output) <= MatchingFiles(c.needle, c.root.path, c.root.entries)
    ensures multiset(s.g.visited) <= AllFolders(c.root)
  {
    hide Run, Accounted, Mass, MatchingFiles, Folders;
    RunAccounts(c, schedule, Matches);
    AtMost(c, s, Matches);
    MassCountsMatches(c.needle, c.root.path, c.root.entries);
    forall p
      ensures multiset(s.g.output)[p] <= MatchingFiles(c.needle, c.root.path, c.root.entries)[p]
    {
      RunAccounts(c, schedule, PrintedAt(p));
      AtMost(c, s, PrintedAt(p));
      MassLocatesMatches(c.needle, p, c.root.path, c.root.entries);
    }
    forall p
      ensures multiset(s.g.visited)[p] <= AllFolders(c.root)[p]
    {
      RunAccounts(c, schedule, VisitedAt(p));
      AtMost(c, s, VisitedAt(p));
      MassLocatesFolders(c.needle, p, c.root.path, c.root.entries);
    }
  }

  /** The number printed at the end is never too large. */
  lemma {:induction false} ReportNotTooMuch(c: Config, schedule: seq<Event>, s: State)
    requires Run(c, schedule) == Some(s) && LstatWorks(schedule) && s.main.pc.Exited?
    ensures s.main.reported <= |MatchingFiles(c.needle, c.root.path, c.root.entries)|
  {
    hide MatchingFiles, MainNext, WorkerNext;
    var n := |schedule| - 1;
    var before := Run(c, schedule[..n]).value;
    if before.main.pc.Exited? && schedule[n].WorkerStep? {
      ReportNotTooMuch(c, schedule[..n], before);
    } else {
      MainReports(c, before.main, before.g, s.main, s.g);
      NeverTooMuch(c, schedule, s);
    }
  }
}
