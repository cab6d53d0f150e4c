/** Nothing is lost and nothing is counted twice, for any measure of the tree. */
module PfindConservation {
  import opened Basics
  import opened FileTree
  import opened Pfind
  import opened PfindInvariant
  import opened PfindMain

  /** The worker has met an error that `thread_errors_cntr` does not show yet. */
  predicate Doomed(w: Worker) {
    (Scanning(w.pc) && w.bad) || (w.pc.FailLock? || w.pc.FailLoad? || w.pc.FailStore?)
  }

  ghost predicate Clean(s: State) {
    s.g.errors == 0 && forall t :: 0 <= t < |s.workers| ==> !Doomed(s.workers[t])
  }

  function Count(p: Path, ps: seq<Path>): nat {
    multiset(ps)[p]
  }

  /** What the shared variables have accounted for. */
  function Collected(g: Globals, m: Measure): int {
    match m
    case Matches => g.counter
    case PrintedAt(p) => Count(p, g.output)
    case VisitedAt(p) => Count(p, g.visited)
  }

  function RootMass(c: Config, s: State, m: Measure): nat {
    if s.main.pc == EnqueueRoot then JobMass(c.needle, m, c.root) else 0
  }

  /** Accounted for, queued and in the hands of workers add up to the whole tree. */
  ghost predicate Conserved(c: Config, s: State, m: Measure) {
    Clean(s) ==>
      Collected(s.g, m) + QueueMass(c.needle, m, s.g.queue) + PendingSum(c.needle, m, s.workers) + RootMass(c, s, m)
      == JobMass(c.needle, m, c.root)
  }

  lemma InitConserved(c: Config, m: Measure)
    ensures Conserved(c, Init(c), m)
  {
    PendingNothing(c.needle, m, Init(c).workers);
  }

  // ---- One worker step ----

  /** What the globals and one worker account for or still hold. */
  function LocalMass(needle: string, m: Measure, w: Worker, g: Globals): int {
    Collected(g, m) + QueueMass(needle, m, g.queue) + PendingMass(needle, m, w)
  }

  /** An error is not forgotten, and a step that meets or records none keeps the mass the same. */
  predicate MassEffect(needle: string, m: Measure, w: Worker, g: Globals, w': Worker, g': Globals) {
    && (Doomed(w) ==> Doomed(w') || g'.errors > 0)
    && (!Doomed(w') && g'.errors == g.errors ==> LocalMass(needle, m, w', g') == LocalMass(needle, m, w, g))
  }

  lemma OpMass(needle: string, m: Measure, w: Worker, g: Globals, locks: LockTable)
    requires !Op(w.pc).NoLock?
    ensures MassEffect(needle, m, w, g, w.(pc := AfterOp(w.pc)), g.(locks := locks))
  {
    hide Mass, JobMass, QueueMass, HitWeight, FolderWeight, Count;
  }

  lemma FailingMass(needle: string, m: Measure, w: Worker, g: Globals, w': Worker, g': Globals)
    requires FreshLoad(w, g) && g.errors >= 0 && FailingNext(w, g) == Moved(w', g')
    ensures MassEffect(needle, m, w, g, w', g')
  {
    hide Mass, JobMass, QueueMass, HitWeight, FolderWeight, Count;
  }

  lemma NappingMass(needle: string, m: Measure, w: Worker, g: Globals, w': Worker, g': Globals)
    requires NappingNext(w, g) == Moved(w', g')
    ensures MassEffect(needle, m, w, g, w', g')
  {
    hide Mass, JobMass, QueueMass, HitWeight, FolderWeight, Count;
  }

  lemma TestMass(needle: string, m: Measure, w: Worker, g: Globals, w': Worker, g': Globals)
    requires TestNext(w, g) == Moved(w', g')
    ensures MassEffect(needle, m, w, g, w', g')
  {
    hide Mass, JobMass, QueueMass, HitWeight, FolderWeight, Count;
  }

  lemma CountAppend(p: Path, ps: seq<Path>, q: Path)
    ensures Count(p, ps + [q]) == Count(p, ps) + One(p == q)
  {
  }

  lemma TakeMass(needle: string, m: Measure, w: Worker, g: Globals, w': Worker, g': Globals)
    requires w.pc.Take? && PlainNext(w, g) == Moved(w', g')
    ensures MassEffect(needle, m, w, g, w', g')
  {
  }

  lemma PutMass(needle: string, m: Measure, w: Worker, g: Globals, w': Worker, g': Globals)
    requires WorkerShape(w, g) && w.pc.Put? && PlainNext(w, g) == Moved(w', g')
    ensures MassEffect(needle, m, w, g, w', g')
  {
    QueueMassAppend(needle, m, g.queue, Job(w.path, w.listing));
  }

  lemma CountMass(needle: string, m: Measure, w: Worker, g: Globals, w': Worker, g': Globals)
    requires WorkerShape(w, g) && FreshLoad(w, g) && PlainNext(w, g) == Moved(w', g')
    requires w.pc.CountLoad? || w.pc.CountStore? || w.pc.PrintPath?
    ensures MassEffect(needle, m, w, g, w', g')
  {
    if m.PrintedAt? {
      CountAppend(m.p, g.output, w.path);
    }
  }

  lemma ReadMass(c: Config, m: Measure, w: Worker, a: Answer)
    requires w.pc.ReadEntry? && w.curr.Some? && w.rest != []
    ensures Doomed(w) ==> Doomed(AfterRead(c, w, a))
    ensures !Doomed(AfterRead(c, w, a)) ==> PendingMass(c.needle, m, AfterRead(c, w, a)) == PendingMass(c.needle, m, w)
  {
    assert Mass(c.needle, m, w.curr.value.path, w.rest)
        == EntryMass(c.needle, m, w.curr.value.path, w.rest[0]) + Mass(c.needle, m, w.curr.value.path, w.rest[1..]);
  }

  lemma CloseMass(c: Config, m: Measure, w: Worker, g: Globals, a: Answer, w': Worker, g': Globals)
    requires w.pc.CloseDir? && w.rest == [] && ScanNext(c, w, g, a) == Moved(w', g')
    ensures MassEffect(c.needle, m, w, g, w', g')
  {
    if m.VisitedAt? {
      CountAppend(m.p, g.visited, w.curr.value.path);
    }
  }

  lemma ScanMass(c: Config, m: Measure, w: Worker, g: Globals, a: Answer, w': Worker, g': Globals)
    requires WorkerShape(w, g) && (w.pc.CloseDir? ==> w.rest == []) && ScanNext(c, w, g, a) == Moved(w', g')
    ensures MassEffect(c.needle, m, w, g, w', g')
  {
    if w.pc.ReadEntry? && w.rest != [] {
      ReadMass(c, m, w, a);
    } else if w.pc.CloseDir? {
      CloseMass(c, m, w, g, a, w', g');
    }
  }

  lemma PlainPcs(w: Worker, g: Globals)
    requires PlainNext(w, g).Moved? && !w.pc.Take? && !w.pc.Put?
    ensures w.pc.CountLoad? || w.pc.CountStore? || w.pc.PrintPath?
  {
  }

  lemma WorkerMass(c: Config, m: Measure, w: Worker, g: Globals, t: nat, a: Answer, w': Worker, g': Globals)
    requires WorkerShape(w, g) && FreshLoad(w, g) && g.errors >= 0 && (w.pc.CloseDir? ==> w.rest == [])
    requires WorkerNext(c, w, g, t, a) == Moved(w', g')
    ensures MassEffect(c.needle, m, w, g, w', g')
  {
    hide ScanNext, AfterRead, FailingNext, NappingNext, TestNext, PlainNext, MassEffect, FreshLoad, WorkerShape, Calm;
    if !Op(w.pc).NoLock? {
      OpMass(c.needle, m, w, g, g'.locks);
    } else if InScan(w.pc) {
      ScanMass(c, m, w, g, a, w', g');
    } else if InFailing(w.pc) {
      FailingMass(c.needle, m, w, g, w', g');
    } else if InNapping(w.pc) {
      NappingMass(c.needle, m, w, g, w', g');
    } else if w.pc.Take? {
      TakeMass(c.needle, m, w, g, w', g');
    } else if w.pc.Put? {
      PutMass(c.needle, m, w, g, w', g');
    } else if InTest(w.pc) {
      TestMass(c.needle, m, w, g, w', g');
    } else {
      PlainPcs(w, g);
      CountMass(c.needle, m, w, g, w', g');
    }
  }

  // ---- The whole state ----

  lemma ConservedKept(c: Config, s: State, m: Measure, t: nat, s': State)
    requires t < |s.workers| == |s'.workers| && s'.workers == s.workers[t := s'.workers[t]] && s'.main == s.main
    requires s.g.errors >= 0 && s'.g.errors >= s.g.errors && Conserved(c, s, m)
    requires Clean(s) ==> MassEffect(c.needle, m, s.workers[t], s.g, s'.workers[t], s'.g)
    requires Doomed(s.workers[t]) ==> Doomed(s'.workers[t]) || s'.g.errors > 0
    ensures Conserved(c, s', m)
  {
    if Clean(s') {
      forall u | 0 <= u < |s.workers|
        ensures !Doomed(s.workers[u])
      {
        assert u != t ==> s.workers[u] == s'.workers[u];
        assert !Doomed(s'.workers[u]);
      }
      PendingUpdate(c.needle, m, s.workers, t, s'.workers[t]);
    }
  }

  lemma DoomedKept(c: Config, w: Worker, g: Globals, t: nat, a: Answer, w': Worker, g': Globals)
    requires WorkerShape(w, g) && FreshLoad(w, g) && g.errors >= 0 && Doomed(w)
    requires WorkerNext(c, w, g, t, a) == Moved(w', g')
    ensures Doomed(w') || g'.errors > 0
  {
  }

  lemma WorkerStepConserves(c: Config, s: State, m: Measure, t: nat, a: Answer, w': Worker, g': Globals)
    requires Inv(c, s) && Conserved(c, s, m)
    requires t < |s.workers| && WorkerNext(c, s.workers[t], s.g, t, a) == Moved(w', g')
    ensures Conserved(c, State(s.workers[t := w'], s.main, g'), m)
  {
    hide WorkerNext, QueueEffect, NotStranded, Locked;
    var w := s.workers[t];
    WorkerEffect(c, w, s.g, t, a, w', g');
    if Doomed(w) {
      DoomedKept(c, w, s.g, t, a, w', g');
    }
    if Clean(s) {
      WorkerMass(c, m, w, s.g, t, a, w', g');
    }
    ConservedKept(c, s, m, t, State(s.workers[t := w'], s.main, g'));
  }

  lemma MainStepConserves(c: Config, s: State, m: Measure, m': Main, g': Globals)
    requires Inv(c, s) && Conserved(c, s, m) && MainNext(c, s.main, s.g) == MainMoved(m', g')
    ensures Conserved(c, State(Spawn(s.workers, s.main), m', g'), m)
  {
    hide MainNext, VerdictEffect, Locked, NotStranded, Conserved;
    var s' := State(Spawn(s.workers, s.main), m', g');
    MainEffect(c, s.main, s.g, m', g');
    MainConservedKept(c, s, m, m', g');
  }

  lemma SpawnPending(c: Config, s: State, m: Measure)
    requires Shape(c, s)
    ensures PendingSum(c.needle, m, Spawn(s.workers, s.main)) == PendingSum(c.needle, m, s.workers)
  {
    if Spawn(s.workers, s.main) != s.workers {
      PendingUpdate(c.needle, m, s.workers, s.main.created, s.workers[s.main.created].(pc := StartLock));
    }
  }

  lemma SpawnClean(c: Config, s: State, m': Main, g': Globals)
    requires Shape(c, s) && g'.errors == s.g.errors && Clean(State(Spawn(s.workers, s.main), m', g'))
    ensures Clean(s)
  {
    forall u | 0 <= u < |s.workers|
      ensures !Doomed(s.workers[u])
    {
      SpawnOnly(c, s, u);
      assert !Doomed(Spawn(s.workers, s.main)[u]);
    }
  }

  lemma MainConservedKept(c: Config, s: State, m: Measure, m': Main, g': Globals)
    requires Shape(c, s) && Conserved(c, s, m)
    requires MainCountEffect(s.main, s.g, m', g') && MainShapeEffect(c, s.main, s.g, m', g')
    ensures Conserved(c, State(Spawn(s.workers, s.main), m', g'), m)
  {
    if Clean(State(Spawn(s.workers, s.main), m', g')) {
      SpawnClean(c, s, m', g');
      SpawnPending(c, s, m);
      QueueMassAppend(c.needle, m, s.g.queue, c.root);
    }
  }
}
