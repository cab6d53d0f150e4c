/** Any series of page table operations, against a simple map. */
module PageTableRuns {
  import opened Basics
  import opened Words
  import opened PageWords
  import opened PageTable

  /** What the operating system does: take a fresh frame as the root of a page table, or update a
      mapping through a root. */
  datatype Op =
    | NewTable
    | Map(pt: nat, vpn: Word, ppn: Word)

  // ---- The frames ----

  datatype Machine = Running(mem: Memory) | Exited | Crashed

  function Exec(s: Machine, op: Op): Machine {
    if !s.Running? then s else
    match op
    case NewTable => if |s.mem| >= NPAGES then Exited else Running(s.mem + [Zeros()])
    case Map(pt, vpn, ppn) =>
      match Update(s.mem, pt, Path(vpn), ppn)
      case At(mem, _) => Running(mem)
      case OutOfMemory => Exited
      case Fault => Crashed
  }

  function Run(ops: seq<Op>): Machine {
    if ops == [] then Running([]) else Exec(Run(ops[..|ops| - 1]), ops[|ops| - 1])
  }

  /** The answer of `page_table_query` in a machine that still runs. */
  function Ask(s: Machine, pt: nat, vpn: Word): Answer {
    if s.Running? then Query(s.mem, pt, Path(vpn)) else Crash
  }

  function FramesUsed(s: Machine): nat {
    if s.Running? then |s.mem| else 0
  }

  // ---- The simple map ----

  /** The reference: the mapping by root and low 45 bits of the page number, the places visited, and
      how many frames are used. */
  datatype Model =
    | Model(frames: nat, roots: set<nat>, mapping: map<(nat, nat), Word>, visited: set<Node>)
    | Stopped

  /** The places of the symbol prefixes of length 1 to 4. */
  function Prefixes(pt: nat, vpn: Word): set<Node> {
    {Node(pt, Path(vpn)[..1]), Node(pt, Path(vpn)[..2]), Node(pt, Path(vpn)[..3]), Node(pt, Path(vpn)[..4])}
  }

  function ModelExec(m: Model, op: Op): Model {
    if m.Stopped? then m else
    match op
    case NewTable =>
      if m.frames >= NPAGES then Stopped else m.(frames := m.frames + 1, roots := m.roots + {m.frames})
    case Map(pt, vpn, ppn) =>
      var missing := Prefixes(pt, vpn) - m.visited;
      var key := (pt, vpn % LOW45);
      if m.frames + |missing| > NPAGES then Stopped
      else Model(m.frames + |missing|, m.roots,
                 if ppn == 0xFFFF_FFFF_FFFF_FFFF then m.mapping - {key}
                 else m.mapping[key := ppn % 0x10_0000_0000_0000],
                 m.visited + missing)
  }

  function ModelRun(ops: seq<Op>): Model {
    if ops == [] then Model(0, {}, map[], {}) else ModelExec(ModelRun(ops[..|ops| - 1]), ops[|ops| - 1])
  }

  function ModelQuery(m: Model, pt: nat, vpn: Word): Word {
    if m.Model? && (pt, vpn % LOW45) in m.mapping then m.mapping[(pt, vpn % LOW45)] else 0xFFFF_FFFF_FFFF_FFFF
  }

  function Roots(m: Model): set<nat> {
    if m.Model? then m.roots else {}
  }

  function Visited(m: Model): set<Node> {
    if m.Model? then m.visited else {}
  }

  /** Every update goes through a root that was handed out before. */
  predicate Legal(ops: seq<Op>) {
    ops == [] || (Legal(ops[..|ops| - 1]) && LegalNext(ModelRun(ops[..|ops| - 1]), ops[|ops| - 1]))
  }

  predicate LegalNext(m: Model, op: Op) {
    m.Stopped? || op.NewTable? || op.pt in m.roots
  }

  // ---- How the two belong together ----

  ghost predicate Tables(table: Table, mapping: map<(nat, nat), Word>) {
    forall r: nat, v: Word ::
      && (Key(r, Path(v)) in table <==> (r, v % LOW45) in mapping)
      && (Key(r, Path(v)) in table ==> table[Key(r, Path(v))] == mapping[(r, v % LOW45)])
  }

  function RootNodes(roots: set<nat>): set<Node> {
    set r | r in roots :: Node(r, [])
  }

  ghost predicate Matches(mem: Memory, nodes: seq<Node>, table: Table, m: Model) {
    && m.Model?
    && Shape(mem, nodes) && Holds(mem, nodes, table)
    && |mem| == m.frames
    && (forall r :: r in m.roots ==> r < |nodes| && nodes[r] == Node(r, []))
    && NodeSet(nodes) == RootNodes(m.roots) + m.visited
    && (forall n :: n in m.visited ==> n.prefix != [])
    && Tables(table, m.mapping)
  }

  // ---- One operation ----

  lemma PassedIsPrefixes(pt: nat, vpn: Word)
    ensures Passed(Node(pt, []), Path(vpn)[..4]) == Prefixes(pt, vpn)
  {
    hide Path;
    var p := Path(vpn);
    var q := p[..4];
    var n1, n2, n3, n4 := Node(pt, p[..1]), Node(pt, p[..2]), Node(pt, p[..3]), Node(pt, p[..4]);
    assert ChildOf(Node(pt, []), q[0]) == n1;
    assert ChildOf(n1, q[1..][0]) == n2;
    assert ChildOf(n2, q[1..][1..][0]) == n3;
    assert ChildOf(n3, q[1..][1..][1..][0]) == n4;
    assert Passed(n4, q[1..][1..][1..][1..]) == {};
    assert Passed(n3, q[1..][1..][1..]) == {n4};
    assert Passed(n2, q[1..][1..]) == {n3, n4};
    assert Passed(n1, q[1..]) == {n2, n3, n4};
  }

  lemma AssignTables(table: Table, mapping: map<(nat, nat), Word>, pt: nat, vpn: Word, ppn: Word)
    requires Tables(table, mapping)
    ensures Tables(Assign(table, Key(pt, Path(vpn)), ppn),
                   if ppn == 0xFFFF_FFFF_FFFF_FFFF then mapping - {(pt, vpn % LOW45)}
                   else mapping[(pt, vpn % LOW45) := ppn % 0x10_0000_0000_0000])
  {
    hide Path;
    forall r: nat, v: Word
      ensures Key(r, Path(v)) == Key(pt, Path(vpn)) <==> (r, v % LOW45) == (pt, vpn % LOW45)
    {
      SamePath(v, vpn);
    }
  }

  lemma NewTableMatches(mem: Memory, nodes: seq<Node>, table: Table, m: Model)
    requires Matches(mem, nodes, table, m) && |mem| < NPAGES
    ensures Matches(mem + [Zeros()], nodes + [Node(|mem|, [])], table, ModelExec(m, NewTable))
  {
    hide Shape, Holds, Tables;
    var mem', nodes' := mem + [Zeros()], nodes + [Node(|mem|, [])];
    RootKeeps(mem, nodes, table);
    ShapeSizes(mem, nodes);
    assert NodeSet(nodes') == NodeSet(nodes) + {Node(|mem|, [])};
    assert RootNodes(m.roots + {|mem|}) == RootNodes(m.roots) + {Node(|mem|, [])};
  }

  /** An update does to the frames what it does to the simple map. */
  lemma MapMatches(mem: Memory, nodes: seq<Node>, table: Table, m: Model, pt: nat, vpn: Word, ppn: Word)
    returns (nodes': seq<Node>, table': Table)
    requires Matches(mem, nodes, table, m) && pt in m.roots
    ensures !Update(mem, pt, Path(vpn), ppn).Fault?
    ensures Update(mem, pt, Path(vpn), ppn).OutOfMemory? <==> ModelExec(m, Map(pt, vpn, ppn)).Stopped?
    ensures Update(mem, pt, Path(vpn), ppn).At? ==>
      Matches(Update(mem, pt, Path(vpn), ppn).mem, nodes', table', ModelExec(m, Map(pt, vpn, ppn)))
  {
    hide Path, Update, Shape, Holds, Passed, Prefixes, Assign, Tables, NodeSet, RootNodes;
    PathOk(vpn);
    RootNode(mem, nodes, table, m, pt);
    nodes' := UpdateKeeps(mem, nodes, table, pt, Path(vpn), ppn);
    table' := Assign(table, Key(pt, Path(vpn)), ppn);
    AssignTables(table, m.mapping, pt, vpn, ppn);
    PassedIsPrefixes(pt, vpn);
    NewPlaces(nodes, m, pt, vpn);
    var w := Update(mem, pt, Path(vpn), ppn);
    if w.At? {
      ShapeSizes(w.mem, nodes');
      FramesCounted(mem, nodes, w.mem, nodes', Prefixes(pt, vpn));
    }
  }

  lemma RootNode(mem: Memory, nodes: seq<Node>, table: Table, m: Model, pt: nat)
    requires Matches(mem, nodes, table, m) && pt in m.roots
    ensures pt < |nodes| && nodes[pt] == Node(pt, [])
  {
  }

  /** Roots are not among the places an update passes. */
  lemma NewPlaces(nodes: seq<Node>, m: Model, pt: nat, vpn: Word)
    requires m.Model? && NodeSet(nodes) == RootNodes(m.roots) + m.visited
    ensures Prefixes(pt, vpn) - NodeSet(nodes) == Prefixes(pt, vpn) - m.visited
    ensures NodeSet(nodes) + Prefixes(pt, vpn)
         == RootNodes(m.roots) + (m.visited + (Prefixes(pt, vpn) - m.visited))
    ensures forall n :: n in Prefixes(pt, vpn) ==> n.prefix != []
  {
    hide Path;
    assert forall n :: n in Prefixes(pt, vpn) ==> n.prefix != [] && n !in RootNodes(m.roots);
  }

  /** No frame is at two places, so the frames added are as many as the places added. */
  lemma FramesCounted(mem: Memory, nodes: seq<Node>, mem': Memory, nodes': seq<Node>, passed: set<Node>)
    requires Shape(mem, nodes) && Shape(mem', nodes') && NodeSet(nodes') == NodeSet(nodes) + passed
    ensures |mem'| == |mem| + |passed - NodeSet(nodes)|
  {
    DistinctCount(nodes);
    DistinctCount(nodes');
    assert NodeSet(nodes') == NodeSet(nodes) + (passed - NodeSet(nodes));
  }

  lemma {:induction false} DistinctCount(nodes: seq<Node>)
    requires forall f, g :: 0 <= f < g < |nodes| ==> nodes[f] != nodes[g]
    ensures |NodeSet(nodes)| == |nodes|
  {
    if nodes != [] {
      var rest := nodes[..|nodes| - 1];
      DistinctCount(rest);
      assert NodeSet(nodes) == NodeSet(rest) + {nodes[|nodes| - 1]};
    }
  }

  // ---- Any series of operations ----

  /** The frames always match the simple map: they never fault, and stop when it does. */
  lemma {:induction false} RunMatches(ops: seq<Op>) returns (nodes: seq<Node>, table: Table)
    requires Legal(ops)
    ensures ModelRun(ops).Stopped? <==> Run(ops).Exited?
    ensures ModelRun(ops).Model? ==> Run(ops).Running? && Matches(Run(ops).mem, nodes, table, ModelRun(ops))
  {
    hide Matches, Update;
    if ops == [] {
      nodes, table := [], map[];
      EmptyMatches();
    } else {
      var n := |ops| - 1;
      nodes, table := RunMatches(ops[..n]);
      if ModelRun(ops[..n]).Model? {
        var mem, m := Run(ops[..n]).mem, ModelRun(ops[..n]);
        match ops[n]
        case NewTable =>
          MatchesSize(mem, nodes, table, m);
          if |mem| < NPAGES {
            NewTableMatches(mem, nodes, table, m);
            nodes := nodes + [Node(|mem|, [])];
          }
        case Map(pt, vpn, ppn) =>
          nodes, table := MapMatches(mem, nodes, table, m, pt, vpn, ppn);
      }
    }
  }

  lemma EmptyMatches()
    ensures Matches([], [], map[], Model(0, {}, map[], {}))
  {
  }

  lemma MatchesSize(mem: Memory, nodes: seq<Node>, table: Table, m: Model)
    requires Matches(mem, nodes, table, m)
    ensures |mem| == m.frames
  {
  }

  /** After any legal series of operations, for every page table and every page number, the walk
      answers exactly what the simple map does. */
  lemma QueriesAgree(ops: seq<Op>, pt: nat, vpn: Word)
    requires Legal(ops) && Run(ops).Running? && pt in Roots(ModelRun(ops))
    ensures Ask(Run(ops), pt, vpn) == Found(ModelQuery(ModelRun(ops), pt, vpn))
  {
    hide Run, ModelRun, Path, Query;
    var nodes, table := RunMatches(ops);
    PathOk(vpn);
    QueryIsLookup(Run(ops).mem, nodes, table, pt, Path(vpn));
    assert [] + Path(vpn) == Path(vpn);
    assert Key(pt, Path(vpn)) in table <==> (pt, vpn % LOW45) in ModelRun(ops).mapping;
  }

  // ---- Told from the series of operations alone ----

  /** What the last update of the page said, None if it was never updated. Only the low 45 bits of its
      number tell the page. */
  function LastUpdate(ops: seq<Op>, pt: nat, vpn: Word): Option<Word> {
    if ops == [] then None else
      var op := ops[|ops| - 1];
      if op.Map? && op.pt == pt && op.vpn % 0x2000_0000_0000 == vpn % 0x2000_0000_0000 then Some(op.ppn)
      else LastUpdate(ops[..|ops| - 1], pt, vpn)
  }

  /** The mapping agrees with what was last said of the page. */
  predicate Says(m: map<(nat, nat), Word>, last: Option<Word>, key: (nat, nat)) {
    if last.None? || last.value == 0xFFFF_FFFF_FFFF_FFFF then key !in m
    else key in m && m[key] == last.value % 0x10_0000_0000_0000
  }

  lemma {:induction false} MappingIsLast(ops: seq<Op>, pt: nat, vpn: Word)
    requires ModelRun(ops).Model?
    ensures Says(ModelRun(ops).mapping, LastUpdate(ops, pt, vpn), (pt, vpn % 0x2000_0000_0000))
  {
    hide Prefixes, Says;
    if ops == [] {
      NothingSaid((pt, vpn % 0x2000_0000_0000));
    } else {
      var n := |ops| - 1;
      MappingIsLast(ops[..n], pt, vpn);
      SaysNext(ModelRun(ops[..n]), ops[n], LastUpdate(ops[..n], pt, vpn), pt, vpn);
    }
  }

  lemma NothingSaid(key: (nat, nat))
    ensures Says(map[], None, key)
  {
  }

  lemma SaysNext(m: Model, op: Op, last: Option<Word>, pt: nat, vpn: Word)
    requires ModelExec(m, op).Model? && m.Model? && Says(m.mapping, last, (pt, vpn % 0x2000_0000_0000))
    ensures Says(ModelExec(m, op).mapping,
                 if op.Map? && op.pt == pt && op.vpn % 0x2000_0000_0000 == vpn % 0x2000_0000_0000
                 then Some(op.ppn) else last,
                 (pt, vpn % 0x2000_0000_0000))
  {
    hide Prefixes;
  }

  /** Whatever was updated before, through this root or another: a query answers with all 64 bits set if
      the last update of the page said so or there was none, else with the low 52 bits of the number it gave. */
  lemma QueryIsLastUpdate(ops: seq<Op>, pt: nat, vpn: Word)
    requires Legal(ops) && Run(ops).Running? && pt in Roots(ModelRun(ops))
    ensures Ask(Run(ops), pt, vpn) ==
      match LastUpdate(ops, pt, vpn)
      case None => Found(0xFFFF_FFFF_FFFF_FFFF)
      case Some(ppn) =>
        Found(if ppn == 0xFFFF_FFFF_FFFF_FFFF then 0xFFFF_FFFF_FFFF_FFFF else ppn % 0x10_0000_0000_0000)
  {
    hide Run, ModelRun, Ask, Legal, LastUpdate;
    NeverFaults(ops);
    QueriesAgree(ops, pt, vpn);
    MappingIsLast(ops, pt, vpn);
  }

  /** The machine never touches a frame that was not allocated, and it runs out of frames exactly when
      the roots and the distinct symbol prefixes of length 1 to 4 do not fit. */
  lemma NeverFaults(ops: seq<Op>)
    requires Legal(ops)
    ensures !Run(ops).Crashed? && (Run(ops).Running? <==> ModelRun(ops).Model?)
  {
    hide Run, ModelRun;
    var nodes, table := RunMatches(ops);
    StaysUp(ops);
  }

  lemma {:induction false} StaysUp(ops: seq<Op>)
    requires Legal(ops)
    ensures !Run(ops).Crashed?
  {
    hide Update, Matches, ModelRun;
    if ops != [] {
      var n := |ops| - 1;
      StaysUp(ops[..n]);
      var nodes, table := RunMatches(ops);
      var nodes0, table0 := RunMatches(ops[..n]);
    }
  }

  /** The places of all symbol prefixes of length 1 to 4 that were ever updated, unmaps included. */
  function Places(ops: seq<Op>): set<Node> {
    set i, n | 0 <= i < |ops| && ops[i].Map? && n in Prefixes(ops[i].pt, ops[i].vpn) :: n
  }

  /** How many page tables were asked for. */
  function TablesAsked(ops: seq<Op>): nat {
    if ops == [] then 0 else TablesAsked(ops[..|ops| - 1]) + (if ops[|ops| - 1].NewTable? then 1 else 0)
  }

  lemma PlacesNext(ops: seq<Op>)
    requires ops != []
    ensures var k := |ops| - 1;
      Places(ops) == Places(ops[..k]) + if ops[k].Map? then Prefixes(ops[k].pt, ops[k].vpn) else {}
  {
    hide Prefixes;
    var k := |ops| - 1;
    forall n | n in Places(ops)
      ensures n in Places(ops[..k]) || (ops[k].Map? && n in Prefixes(ops[k].pt, ops[k].vpn))
    {
      var i :| 0 <= i < |ops| && ops[i].Map? && n in Prefixes(ops[i].pt, ops[i].vpn);
      assert i < k ==> ops[..k][i] == ops[i];
    }
    forall n | n in Places(ops[..k])
      ensures n in Places(ops)
    {
      var i :| 0 <= i < k && ops[..k][i].Map? && n in Prefixes(ops[..k][i].pt, ops[..k][i].vpn);
      assert ops[..k][i] == ops[i];
    }
  }

  /** The frames in use are the roots and one for every distinct symbol prefix of length 1 to 4 that
      was ever updated, unmaps included. */
  lemma FramesExactly(ops: seq<Op>)
    requires Legal(ops) && Run(ops).Running?
    ensures FramesUsed(Run(ops)) == |Roots(ModelRun(ops))| + |Visited(ModelRun(ops))|
    ensures Visited(ModelRun(ops)) == Places(ops) && |Roots(ModelRun(ops))| == TablesAsked(ops)
  {
    hide Run, Path, Places, Legal;
    var nodes, table := RunMatches(ops);
    MatchesSize(Run(ops).mem, nodes, table, ModelRun(ops));
    ModelCounts(ops);
  }

  /** The simple map stops exactly when the page tables and the places do not fit into 2^20 frames. */
  predicate Fits(m: Model, tables: nat, places: set<Node>) {
    && (m.Model? <==> tables + |places| <= 1048576)
    && (m.Model? ==> m.visited == places && m.frames == tables + |places| && |m.roots| == tables
                     && forall r :: r in m.roots ==> r < m.frames)
  }

  lemma {:induction false} ModelCounts(ops: seq<Op>)
    ensures Fits(ModelRun(ops), TablesAsked(ops), Places(ops))
  {
    hide Prefixes, Places, Fits, ModelExec;
    if ops == [] {
      NoPlaces();
    } else {
      var k := |ops| - 1;
      ModelCounts(ops[..k]);
      PlacesNext(ops);
      FitsNext(ModelRun(ops[..k]), ops[k], TablesAsked(ops[..k]), Places(ops[..k]));
    }
  }

  lemma FitsNext(m: Model, op: Op, tables: nat, places: set<Node>)
    requires Fits(m, tables, places)
    ensures Fits(ModelExec(m, op), tables + if op.NewTable? then 1 else 0,
                 places + if op.Map? then Prefixes(op.pt, op.vpn) else {})
  {
    hide Prefixes;
    assert places + {} == places;
    if op.Map? {
      var more := Prefixes(op.pt, op.vpn);
      assert places + (more - places) == places + more;
      GrownBy(places, more);
    }
  }

  lemma NoPlaces()
    ensures Places([]) == {} && Fits(ModelRun([]), TablesAsked([]), {})
  {
  }

  /** Any legal series runs through exactly if the page tables asked for and the places updated, each with
      one frame, are at most 1024 * 1024 together. */
  lemma RunsExactly(ops: seq<Op>)
    requires Legal(ops)
    ensures Run(ops).Running? <==> TablesAsked(ops) + |Places(ops)| <= 1024 * 1024
    ensures Run(ops).Running? ==> FramesUsed(Run(ops)) == TablesAsked(ops) + |Places(ops)|
  {
    hide Run, Places, ModelRun, Legal;
    NeverFaults(ops);
    ModelCounts(ops);
    if Run(ops).Running? {
      FramesExactly(ops);
    }
  }

  // ---- One more update ----

  function After(ops: seq<Op>, pt: nat, vpn: Word, ppn: Word): Machine {
    Run(ops + [Map(pt, vpn, ppn)])
  }

  /** What one more update does to the two, and that it hands out no root. */
  lemma OneMore(ops: seq<Op>, pt: nat, vpn: Word, ppn: Word)
    requires Legal(ops) && pt in Roots(ModelRun(ops))
    ensures var ops' := ops + [Map(pt, vpn, ppn)];
      && Legal(ops') && ModelRun(ops') == ModelExec(ModelRun(ops), Map(pt, vpn, ppn))
      && (After(ops, pt, vpn, ppn).Running? <==> ModelRun(ops').Model?)
      && (ModelRun(ops').Model? ==> Run(ops).Running? && Roots(ModelRun(ops')) == Roots(ModelRun(ops)))
  {
    hide Path, Prefixes, Update;
    var ops' := ops + [Map(pt, vpn, ppn)];
    assert ops'[..|ops|] == ops && ops'[|ops|] == Map(pt, vpn, ppn);
    NeverFaults(ops);
    NeverFaults(ops');
  }

  /** An update answers a later query with the page number given exactly when that number fits into
      52 bits; the special value removes the mapping. */
  lemma UpdateReadsBack(ops: seq<Op>, pt: nat, vpn: Word, ppn: Word)
    requires Legal(ops) && pt in Roots(ModelRun(ops))
    ensures After(ops, pt, vpn, ppn).Running? ==>
      (Ask(After(ops, pt, vpn, ppn), pt, vpn) == Found(ppn)
       <==> ppn < 0x10_0000_0000_0000 || ppn == 0xFFFF_FFFF_FFFF_FFFF)
  {
    hide Run, ModelRun, Legal, Path, Query, Ask, LastUpdate;
    OneMore(ops, pt, vpn, ppn);
    if After(ops, pt, vpn, ppn).Running? {
      QueryIsLastUpdate(ops + [Map(pt, vpn, ppn)], pt, vpn);
      LastIsThis(ops, pt, vpn, ppn);
    }
  }

  lemma LastIsThis(ops: seq<Op>, pt: nat, vpn: Word, ppn: Word)
    ensures LastUpdate(ops + [Map(pt, vpn, ppn)], pt, vpn) == Some(ppn)
  {
  }

  /** A page number of 2^52 is mapped without complaint, and comes back as another one. */
  lemma WidePageNumberLost()
    ensures After([NewTable], 0, 5, 0x10_0000_0000_0000).Running?
    ensures Ask(After([NewTable], 0, 5, 0x10_0000_0000_0000), 0, 5) == Found(0)
  {
    hide Path, Prefixes, Update, Run, Ask;
    var ops := [NewTable];
    OneTable();
    OneMore(ops, 0, 5, 0x10_0000_0000_0000);
    FourPlaces(0, 5, {});
    assert Prefixes(0, 5) - {} == Prefixes(0, 5);
    QueriesAgree(ops + [Map(0, 5, 0x10_0000_0000_0000)], 0, 5);
  }

  lemma OneTable()
    ensures Legal([NewTable]) && ModelRun([NewTable]) == Model(1, {0}, map[], {})
  {
    assert [NewTable][..0] == [];
    assert {} + {0} == {0};
  }

  /** An update through one root leaves every query through another root, and every query for a page
      number with other low 45 bits, as it was. */
  lemma UpdateIsLocal(ops: seq<Op>, pt: nat, vpn: Word, ppn: Word, pt2: nat, vpn2: Word)
    requires Legal(ops) && pt in Roots(ModelRun(ops)) && pt2 in Roots(ModelRun(ops))
    requires pt2 != pt || vpn2 % LOW45 != vpn % LOW45
    ensures After(ops, pt, vpn, ppn).Running? ==>
      Ask(After(ops, pt, vpn, ppn), pt2, vpn2) == Ask(Run(ops), pt2, vpn2)
  {
    hide Run, Legal, Path, Query, Prefixes, Ask;
    OneMore(ops, pt, vpn, ppn);
    if After(ops, pt, vpn, ppn).Running? {
      QueriesAgree(ops + [Map(pt, vpn, ppn)], pt2, vpn2);
      QueriesAgree(ops, pt2, vpn2);
    }
  }

  /** An update takes at most 4 frames, and none if its four-symbol prefix was visited before. */
  lemma UpdateFrames(ops: seq<Op>, pt: nat, vpn: Word, ppn: Word)
    requires Legal(ops) && pt in Roots(ModelRun(ops))
    ensures After(ops, pt, vpn, ppn).Running? ==>
      FramesUsed(Run(ops)) <= FramesUsed(After(ops, pt, vpn, ppn)) <= FramesUsed(Run(ops)) + 4
    ensures After(ops, pt, vpn, ppn).Running?
        && (exists i :: 0 <= i < |ops| && ops[i].Map? && ops[i].pt == pt && Path(ops[i].vpn)[..4] == Path(vpn)[..4])
        ==> FramesUsed(After(ops, pt, vpn, ppn)) == FramesUsed(Run(ops))
  {
    hide Run, Legal, Path, Prefixes, FramesUsed;
    OneMore(ops, pt, vpn, ppn);
    if After(ops, pt, vpn, ppn).Running? {
      var visited := Visited(ModelRun(ops));
      FramesExactly(ops);
      FramesExactly(ops + [Map(pt, vpn, ppn)]);
      FourPlaces(pt, vpn, visited);
      GrownBy(visited, Prefixes(pt, vpn));
      if i :| 0 <= i < |ops| && ops[i].Map? && ops[i].pt == pt && Path(ops[i].vpn)[..4] == Path(vpn)[..4] {
        SamePlaces(pt, ops[i].vpn, vpn);
        assert Prefixes(pt, vpn) - visited == {};
      }
    }
  }

  lemma GrownBy(visited: set<Node>, places: set<Node>)
    ensures |visited + (places - visited)| == |visited| + |places - visited|
  {
  }

  lemma FourPlaces(pt: nat, vpn: Word, visited: set<Node>)
    ensures |Prefixes(pt, vpn) - visited| <= 4
  {
    hide Path;
    var p := Path(vpn);
    var n1, n2, n3, n4 := Node(pt, p[..1]), Node(pt, p[..2]), Node(pt, p[..3]), Node(pt, p[..4]);
    assert |{n1, n2, n3, n4}| <= 4;
    SubsetSize(Prefixes(pt, vpn) - visited, {n1, n2, n3, n4});
  }

  lemma {:induction false} SubsetSize(a: set<Node>, b: set<Node>)
    requires a <= b
    ensures |a| <= |b|
  {
    if a != {} {
      var n :| n in a;
      SubsetSize(a - {n}, b - {n});
    }
  }

  lemma SamePlaces(pt: nat, u: Word, v: Word)
    requires Path(u)[..4] == Path(v)[..4]
    ensures Prefixes(pt, u) == Prefixes(pt, v)
  {
    hide Path;
    var p, q := Path(u), Path(v);
    assert forall k :: 0 <= k <= 4 ==> p[..k] == p[..4][..k] && q[..k] == q[..4][..k];
  }
}
