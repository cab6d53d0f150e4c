/** The five-level page table on values: what one update does to the frames, and the tree they form. */
module PageTable {
  import opened Words
  import opened PageWords

  const NPAGES: nat := 0x10_0000

  /** The contents of one page frame. */
  type Frame = s: seq<Word> | |s| == 512 witness seq(512, _ => 0)

  /** The contents of the frames allocated so far, by physical page number. */
  type Memory = seq<Frame>

  function Zeros(): Frame {
    seq(512, _ => 0)
  }

  /** The entry that names frame `f`: its number above 12 bits of flags, valid bit set. */
  function Pointer(f: nat): (w: nat)
    ensures f < NPAGES ==> w < WORD_SIZE
  {
    4096 * f + 1
  }

  // ---- The update ----

  datatype Walk = At(mem: Memory, frame: nat) | OutOfMemory | Fault

  /** One iteration of the loop of `page_table_update`: follow the entry, allocating a frame for it
      if it is 0. `Fault` is an access outside the allocated frames. */
  function Touch(mem: Memory, f: nat, d: nat): Walk {
    if f >= |mem| || d >= 512 then Fault
    else if mem[f][d] != 0 then At(mem, mem[f][d] / 4096)
    else if |mem| >= NPAGES then OutOfMemory
    else At(mem[f := mem[f][d := Pointer(|mem|)]] + [Zeros()], |mem|)
  }

  function Descend(mem: Memory, f: nat, path: seq<nat>): Walk
    decreases |path|
  {
    if path == [] then At(mem, f) else
      var w := Touch(mem, f, path[0]);
      if w.At? then Descend(w.mem, w.frame, path[1..]) else w
  }

  /** The leaf entry after an update: lines 58-63. */
  function LeafEntry(old_entry: Word, ppn: Word): Word {
    if ppn == NO_MAPPING then old_entry - old_entry % 2 else (ppn % 0x10_0000_0000_0000) * 4096 + 1
  }

  function Store(mem: Memory, f: nat, d: nat, ppn: Word): Walk {
    if f >= |mem| || d >= 512 then Fault
    else At(mem[f := mem[f][d := LeafEntry(mem[f][d], ppn)]], f)
  }

  function Update(mem: Memory, pt: nat, path: seq<nat>, ppn: Word): Walk
    requires |path| == 5
  {
    var w := Descend(mem, pt, path[..4]);
    if w.At? then Store(w.mem, w.frame, path[4], ppn) else w
  }

  // ---- The query ----

  datatype Answer = Found(ppn: Word) | Crash

  function Decode(w: Word): Word {
    if w % 2 == 0 then NO_MAPPING else w / 4096
  }

  function Query(mem: Memory, f: nat, path: seq<nat>): Answer
    requires 1 <= |path|
    decreases |path|
  {
    if f >= |mem| || path[0] >= 512 then Crash
    else if |path| == 1 || mem[f][path[0]] % 2 == 0 then Found(Decode(mem[f][path[0]]))
    else Query(mem, mem[f][path[0]] / 4096, path[1..])
  }

  // ---- The tree ----

  /** Where a frame sits: below which root, and after which symbols. */
  datatype Node = Node(root: nat, prefix: seq<nat>)

  function ChildOf(n: Node, d: nat): Node {
    Node(n.root, n.prefix + [d])
  }

  function ParentOf(n: Node): Node
    requires n.prefix != []
  {
    Node(n.root, n.prefix[..|n.prefix| - 1])
  }

  /** Entry `d` of inner frame `f` is 0 and leads nowhere, or is an odd word that names the one frame
      at that place. */
  ghost predicate EntryOk(mem: Memory, nodes: seq<Node>, f: nat, d: nat)
    requires f < |mem| == |nodes| && d < 512
  {
    var w, child := mem[f][d], ChildOf(nodes[f], d);
    if w == 0 then child !in nodes
    else w == 4096 * (w / 4096) + 1 && w / 4096 < |nodes| && nodes[w / 4096] == child
  }

  /** The frames form disjoint trees: no two frames at the same place, every frame but the roots has its
      parent, and every inner entry is in order. */
  ghost predicate Shape(mem: Memory, nodes: seq<Node>) {
    && |mem| == |nodes| <= NPAGES
    && (forall f :: 0 <= f < |nodes| ==> NodeOk(nodes, f))
    && (forall f, g :: 0 <= f < g < |nodes| ==> nodes[f] != nodes[g])
    && (forall f, d :: 0 <= f < |mem| && 0 <= d < 512 && |nodes[f].prefix| < 4 ==> EntryOk(mem, nodes, f, d))
  }

  ghost predicate NodeOk(nodes: seq<Node>, f: nat)
    requires f < |nodes|
  {
    var n := nodes[f];
    && |n.prefix| <= 4
    && (n.prefix == [] ==> n.root == f)
    && (n.prefix != [] ==> n.prefix[|n.prefix| - 1] < 512 && ParentOf(n) in nodes)
  }

  // ---- The mapping ----

  /** The simple map: which page numbers are mapped below which root. */
  datatype Key = Key(root: nat, path: seq<nat>)
  type Table = map<Key, Word>

  function LeafKey(n: Node, d: nat): Key {
    Key(n.root, n.prefix + [d])
  }

  ghost predicate LeafOk(mem: Memory, nodes: seq<Node>, table: Table, f: nat, d: nat)
    requires f < |mem| == |nodes| && d < 512
  {
    var w, key := mem[f][d], LeafKey(nodes[f], d);
    if w % 2 == 0 then key !in table else key in table && table[key] == w / 4096
  }

  /** The leaves hold exactly the mapping. */
  ghost predicate Holds(mem: Memory, nodes: seq<Node>, table: Table) {
    && |mem| == |nodes|
    && (forall f, d :: 0 <= f < |mem| && 0 <= d < 512 && |nodes[f].prefix| == 4 ==> LeafOk(mem, nodes, table, f, d))
    && (forall key :: key in table ==> |key.path| == 5 && Node(key.root, key.path[..4]) in nodes)
  }

  // ---- Every frame but the roots has one parent entry ----

  /** Two inner entries that name the same frame are the same entry. */
  lemma OneParent(mem: Memory, nodes: seq<Node>, f: nat, d: nat, g: nat, e: nat)
    requires Shape(mem, nodes) && f < |mem| && d < 512 && g < |mem| && e < 512
    requires |nodes[f].prefix| < 4 && |nodes[g].prefix| < 4
    requires mem[f][d] != 0 && mem[g][e] != 0 && mem[f][d] / 4096 == mem[g][e] / 4096
    ensures f == g && d == e
  {
    assert EntryOk(mem, nodes, f, d) && EntryOk(mem, nodes, g, e);
    ChildInjective(nodes[f], d, nodes[g], e);
  }

  lemma ChildInjective(m: Node, d: nat, n: Node, e: nat)
    ensures ChildOf(m, d) == ChildOf(n, e) ==> m == n && d == e
  {
    var p, q := m.prefix + [d], n.prefix + [e];
    assert p[..|p| - 1] == m.prefix && q[..|q| - 1] == n.prefix;
    assert p[|p| - 1] == d && q[|q| - 1] == e;
  }

  /** Every frame that is not a root is named by an entry one level up; no entry names a root. */
  lemma HasParent(mem: Memory, nodes: seq<Node>, h: nat)
    requires Shape(mem, nodes) && h < |nodes|
    ensures nodes[h].prefix != [] <==> exists f, d ::
      0 <= f < |mem| && 0 <= d < 512 && |nodes[f].prefix| + 1 == |nodes[h].prefix| && mem[f][d] == 4096 * h + 1
  {
    var n := nodes[h];
    assert NodeOk(nodes, h);
    if n.prefix != [] {
      var d := n.prefix[|n.prefix| - 1];
      var f :| 0 <= f < |nodes| && nodes[f] == ParentOf(n);
      assert EntryOk(mem, nodes, f, d);
      assert ChildOf(nodes[f], d).prefix == n.prefix;
      assert nodes[mem[f][d] / 4096] == nodes[h];
      assert mem[f][d] == 4096 * h + 1;
    }
  }

  // ---- A new root keeps the tree ----

  lemma RootKeeps(mem: Memory, nodes: seq<Node>, table: Table)
    requires Shape(mem, nodes) && Holds(mem, nodes, table) && |mem| < NPAGES
    ensures Shape(mem + [Zeros()], nodes + [Node(|mem|, [])])
    ensures Holds(mem + [Zeros()], nodes + [Node(|mem|, [])], table)
  {
    var mem', nodes' := mem + [Zeros()], nodes + [Node(|mem|, [])];
    RootShape(mem, nodes);
    forall f, d | 0 <= f < |mem'| && 0 <= d < 512 && |nodes'[f].prefix| == 4
      ensures LeafOk(mem', nodes', table, f, d)
    {
      assert LeafOk(mem, nodes, table, f, d);
    }
  }

  lemma RootShape(mem: Memory, nodes: seq<Node>)
    requires Shape(mem, nodes) && |mem| < NPAGES
    ensures Shape(mem + [Zeros()], nodes + [Node(|mem|, [])])
  {
    var mem', nodes' := mem + [Zeros()], nodes + [Node(|mem|, [])];
    forall f | 0 <= f < |nodes|
      ensures nodes[f] != Node(|mem|, []) && NodeOk(nodes', f)
    {
      assert NodeOk(nodes, f);
    }
    forall f, d | 0 <= f < |mem'| && 0 <= d < 512 && |nodes'[f].prefix| < 4
      ensures EntryOk(mem', nodes', f, d)
    {
      if f < |mem| {
        assert EntryOk(mem, nodes, f, d);
      } else {
        var child := ChildOf(Node(|mem|, []), d);
        assert ParentOf(child) == Node(|mem|, []);
        if child in nodes {
          ParentPresent(nodes, child);
        }
      }
    }
  }

  // ---- One iteration keeps the tree ----

  lemma TouchKeeps(mem: Memory, nodes: seq<Node>, table: Table, f: nat, d: nat) returns (nodes': seq<Node>)
    requires Shape(mem, nodes) && Holds(mem, nodes, table)
    requires f < |mem| && d < 512 && |nodes[f].prefix| < 4
    ensures !Touch(mem, f, d).Fault?
    ensures Touch(mem, f, d).OutOfMemory? <==> ChildOf(nodes[f], d) !in nodes && |mem| == NPAGES
    ensures var w := Touch(mem, f, d); w.At? ==>
      && nodes' == (if ChildOf(nodes[f], d) in nodes then nodes else nodes + [ChildOf(nodes[f], d)])
      && Shape(w.mem, nodes') && Holds(w.mem, nodes', table)
      && w.frame < |nodes'| && nodes'[w.frame] == ChildOf(nodes[f], d)
  {
    assert EntryOk(mem, nodes, f, d);
    nodes' := nodes;
    if mem[f][d] == 0 && |mem| < NPAGES {
      nodes' := nodes + [ChildOf(nodes[f], d)];
      GrowShape(mem, nodes, f, d);
      GrowHolds(mem, nodes, table, f, d);
    }
  }

  function Grown(mem: Memory, f: nat, d: nat): Memory
    requires f < |mem| < NPAGES && d < 512
  {
    mem[f := mem[f][d := Pointer(|mem|)]] + [Zeros()]
  }

  lemma GrowShape(mem: Memory, nodes: seq<Node>, f: nat, d: nat)
    requires Shape(mem, nodes) && f < |mem| < NPAGES && d < 512 && |nodes[f].prefix| < 4 && mem[f][d] == 0
    ensures Shape(Grown(mem, f, d), nodes + [ChildOf(nodes[f], d)])
  {
    var child := ChildOf(nodes[f], d);
    var mem', nodes' := Grown(mem, f, d), nodes + [child];
    assert EntryOk(mem, nodes, f, d);
    forall g | 0 <= g < |nodes'|
      ensures NodeOk(nodes', g)
    {
      if g < |nodes| {
        assert NodeOk(nodes, g);
      } else {
        assert ParentOf(child) == nodes[f] && nodes'[f] == nodes[f];
      }
    }
    forall g, e | 0 <= g < |mem'| && 0 <= e < 512 && |nodes'[g].prefix| < 4
      ensures EntryOk(mem', nodes', g, e)
    {
      if g < |mem| {
        GrowOldEntry(mem, nodes, f, d, g, e);
      } else {
        GrowNewEntry(mem, nodes, f, d, e);
      }
    }
  }

  lemma GrowOldEntry(mem: Memory, nodes: seq<Node>, f: nat, d: nat, g: nat, e: nat)
    requires Shape(mem, nodes) && f < |mem| < NPAGES && d < 512 && |nodes[f].prefix| < 4 && mem[f][d] == 0
    requires g < |mem| && e < 512 && |nodes[g].prefix| < 4
    ensures EntryOk(Grown(mem, f, d), nodes + [ChildOf(nodes[f], d)], g, e)
  {
    assert EntryOk(mem, nodes, g, e);
    if ChildOf(nodes[g], e) == ChildOf(nodes[f], d) {
      var p, q := nodes[g].prefix + [e], nodes[f].prefix + [d];
      assert p[..|p| - 1] == nodes[g].prefix && q[..|q| - 1] == nodes[f].prefix;
      assert p[|p| - 1] == e && q[|q| - 1] == d;
      assert nodes[g] == nodes[f];
    }
  }

  lemma GrowNewEntry(mem: Memory, nodes: seq<Node>, f: nat, d: nat, e: nat)
    requires Shape(mem, nodes) && f < |mem| < NPAGES && d < 512 && |nodes[f].prefix| < 3 && mem[f][d] == 0 && e < 512
    ensures EntryOk(Grown(mem, f, d), nodes + [ChildOf(nodes[f], d)], |mem|, e)
  {
    var child := ChildOf(nodes[f], d);
    var below := ChildOf(child, e);
    assert EntryOk(mem, nodes, f, d);
    assert ParentOf(below) == child;
    if below in nodes {
      var g :| 0 <= g < |nodes| && nodes[g] == below;
      assert NodeOk(nodes, g);
    }
    assert below.prefix != child.prefix;
  }

  lemma GrowHolds(mem: Memory, nodes: seq<Node>, table: Table, f: nat, d: nat)
    requires Shape(mem, nodes) && Holds(mem, nodes, table)
    requires f < |mem| < NPAGES && d < 512 && |nodes[f].prefix| < 4 && mem[f][d] == 0
    ensures Holds(Grown(mem, f, d), nodes + [ChildOf(nodes[f], d)], table)
  {
    var child := ChildOf(nodes[f], d);
    var mem', nodes' := Grown(mem, f, d), nodes + [child];
    assert EntryOk(mem, nodes, f, d);
    forall g, e | 0 <= g < |mem'| && 0 <= e < 512 && |nodes'[g].prefix| == 4
      ensures LeafOk(mem', nodes', table, g, e)
    {
      if g < |mem| {
        assert LeafOk(mem, nodes, table, g, e);
      } else {
        var key := LeafKey(child, e);
        assert key.path[..4] == child.prefix;
      }
    }
  }

  // ---- The whole descent ----

  /** The places the four iterations pass, the root left out. */
  function Passed(n: Node, path: seq<nat>): set<Node>
    decreases |path|
  {
    if path == [] then {} else {ChildOf(n, path[0])} + Passed(ChildOf(n, path[0]), path[1..])
  }

  function NodeSet(nodes: seq<Node>): set<Node> {
    set n | n in nodes
  }

  lemma {:induction false} PassedDeeper(n: Node, path: seq<nat>, x: Node)
    requires x in Passed(n, path)
    ensures |x.prefix| > |n.prefix| && x.root == n.root
    decreases |path|
  {
    if x != ChildOf(n, path[0]) {
      PassedDeeper(ChildOf(n, path[0]), path[1..], x);
    }
  }

  lemma ParentPresent(nodes: seq<Node>, n: Node)
    requires forall f :: 0 <= f < |nodes| ==> NodeOk(nodes, f)
    requires n in nodes && n.prefix != []
    ensures ParentOf(n) in nodes
  {
    var f :| 0 <= f < |nodes| && nodes[f] == n;
    assert NodeOk(nodes, f);
  }

  /** A place whose parent place is missing is missing too. */
  lemma {:induction false} MissingBelow(nodes: seq<Node>, n: Node, path: seq<nat>)
    requires forall f :: 0 <= f < |nodes| ==> NodeOk(nodes, f)
    requires n !in nodes
    ensures Passed(n, path) !! NodeSet(nodes)
    decreases |path|
  {
    if path != [] {
      var child := ChildOf(n, path[0]);
      assert ParentOf(child) == n;
      if child in nodes {
        ParentPresent(nodes, child);
      }
      MissingBelow(nodes, child, path[1..]);
    }
  }

  /** The descent fails exactly when the missing frames do not fit; otherwise it adds exactly them and
      ends at the frame of the whole path. */
  lemma {:induction false} DescendKeeps(mem: Memory, nodes: seq<Node>, table: Table, f: nat, path: seq<nat>)
    returns (nodes': seq<Node>)
    requires Shape(mem, nodes) && Holds(mem, nodes, table)
    requires f < |mem| && |nodes[f].prefix| + |path| <= 4 && forall i :: 0 <= i < |path| ==> path[i] < 512
    ensures !Descend(mem, f, path).Fault?
    ensures Descend(mem, f, path).OutOfMemory? <==> |mem| + |Passed(nodes[f], path) - NodeSet(nodes)| > NPAGES
    ensures var w := Descend(mem, f, path); w.At? ==>
      && nodes <= nodes' && NodeSet(nodes') == NodeSet(nodes) + Passed(nodes[f], path)
      && Shape(w.mem, nodes') && Holds(w.mem, nodes', table)
      && w.frame < |nodes'| && nodes'[w.frame] == Node(nodes[f].root, nodes[f].prefix + path)
    decreases |path|
  {
    hide Touch, Shape, Holds, Passed, NodeOk, NodeSet;
    ShapeSizes(mem, nodes);
    nodes' := nodes;
    if path == [] {
      NothingPassed(nodes[f], nodes);
      assert NodeSet(nodes) + {} == NodeSet(nodes);
      assert nodes[f].prefix + path == nodes[f].prefix;
    } else {
      var child := ChildOf(nodes[f], path[0]);
      var w := Touch(mem, f, path[0]);
      var nodes1 := TouchKeeps(mem, nodes, table, f, path[0]);
      MissingCount(nodes, nodes[f], path);
      assert nodes[f].prefix + path == child.prefix + path[1..];
      if w.At? {
        nodes' := DescendKeeps(w.mem, nodes1, table, w.frame, path[1..]);
        ShapeSizes(w.mem, nodes1);
      }
    }
  }

  lemma NothingPassed(n: Node, nodes: seq<Node>)
    ensures Passed(n, []) == {} && |Passed(n, []) - NodeSet(nodes)| == 0
  {
    assert Passed(n, []) - NodeSet(nodes) == {};
  }

  lemma ShapeSizes(mem: Memory, nodes: seq<Node>)
    requires Shape(mem, nodes)
    ensures |mem| == |nodes| <= NPAGES
    ensures forall f :: 0 <= f < |nodes| ==> NodeOk(nodes, f)
  {
  }

  /** The missing places of a path: the first one, if it is missing, and those of the rest. */
  lemma MissingCount(nodes: seq<Node>, n: Node, path: seq<nat>)
    requires path != [] && forall f :: 0 <= f < |nodes| ==> NodeOk(nodes, f)
    ensures var child := ChildOf(n, path[0]);
      var nodes1 := if child in nodes then nodes else nodes + [child];
      && |Passed(n, path) - NodeSet(nodes)|
         == (if child in nodes then 0 else 1) + |Passed(child, path[1..]) - NodeSet(nodes1)|
      && NodeSet(nodes1) + Passed(child, path[1..]) == NodeSet(nodes) + Passed(n, path)
  {
    var child := ChildOf(n, path[0]);
    var below := Passed(child, path[1..]);
    if child in nodes {
      assert Passed(n, path) - NodeSet(nodes) == below - NodeSet(nodes);
      assert NodeSet(nodes) + below == NodeSet(nodes) + Passed(n, path);
    } else {
      MissingBelow(nodes, child, path[1..]);
      if child in below {
        PassedDeeper(child, path[1..], child);
      }
      OneMoreNode(nodes, child, below);
    }
  }

  lemma OneMoreNode(nodes: seq<Node>, child: Node, below: set<Node>)
    requires child !in nodes && below !! NodeSet(nodes) && child !in below
    ensures NodeSet(nodes + [child]) + below == NodeSet(nodes) + ({child} + below)
    ensures |({child} + below) - NodeSet(nodes)| == 1 + |below - NodeSet(nodes + [child])|
  {
    hide *;
    NodeSetGrows(nodes, child);
    OneMore(NodeSet(nodes), child, below);
  }

  lemma NodeSetGrows(nodes: seq<Node>, child: Node)
    ensures NodeSet(nodes + [child]) == NodeSet(nodes) + {child}
    ensures child in NodeSet(nodes) <==> child in nodes
  {
  }

  lemma OneMore(present: set<Node>, child: Node, below: set<Node>)
    requires child !in present && below !! present && child !in below
    ensures present + {child} + below == present + ({child} + below)
    ensures |({child} + below) - present| == 1 + |below - (present + {child})|
  {
    assert ({child} + below) - present == {child} + below;
    assert below - (present + {child}) == below;
  }

  // ---- The leaf ----

  /** The simple map after an update. */
  function Assign(table: Table, key: Key, ppn: Word): Table {
    if ppn == 0xFFFF_FFFF_FFFF_FFFF then table - {key} else table[key := ppn % 0x10_0000_0000_0000]
  }

  lemma LeafEntryDecodes(w: Word, ppn: Word)
    ensures ppn == NO_MAPPING ==> LeafEntry(w, ppn) % 2 == 0
    ensures ppn != NO_MAPPING ==> LeafEntry(w, ppn) % 2 == 1 && LeafEntry(w, ppn) / 4096 == ppn % 0x10_0000_0000_0000
  {
    var x := ppn % 0x10_0000_0000_0000;
    DivUnique(x * 4096 + 1, 4096, x, 1);
    DivUnique(x * 4096 + 1, 2, 2048 * x, 1);
    DivUnique(w - w % 2, 2, w / 2, 0);
  }

  lemma StoreKeeps(mem: Memory, nodes: seq<Node>, table: Table, f: nat, d: nat, ppn: Word)
    requires Shape(mem, nodes) && Holds(mem, nodes, table) && f < |mem| && d < 512 && |nodes[f].prefix| == 4
    ensures Store(mem, f, d, ppn).At?
    ensures Shape(Store(mem, f, d, ppn).mem, nodes)
    ensures Holds(Store(mem, f, d, ppn).mem, nodes, Assign(table, LeafKey(nodes[f], d), ppn))
  {
    hide LeafEntry;
    var mem' := Store(mem, f, d, ppn).mem;
    var key := LeafKey(nodes[f], d);
    var table' := Assign(table, key, ppn);
    forall g, e | 0 <= g < |mem'| && 0 <= e < 512 && |nodes[g].prefix| < 4
      ensures EntryOk(mem', nodes, g, e)
    {
      assert EntryOk(mem, nodes, g, e);
    }
    forall g, e | 0 <= g < |mem'| && 0 <= e < 512 && |nodes[g].prefix| == 4
      ensures LeafOk(mem', nodes, table', g, e)
    {
      assert LeafOk(mem, nodes, table, g, e);
      LeafEntryDecodes(mem[f][d], ppn);
      LeafKeyInjective(nodes[g], e, nodes[f], d);
    }
    assert key.path[..4] == nodes[f].prefix;
  }

  lemma LeafKeyInjective(m: Node, e: nat, n: Node, d: nat)
    ensures LeafKey(m, e) == LeafKey(n, d) ==> m == n && e == d
  {
    var p, q := m.prefix + [e], n.prefix + [d];
    assert p[..|p| - 1] == m.prefix && q[..|q| - 1] == n.prefix;
    assert p[|p| - 1] == e && q[|q| - 1] == d;
  }

  // ---- A whole update ----

  predicate IsPath(path: seq<nat>) {
    |path| == 5 && forall i :: 0 <= i < 5 ==> path[i] < 512
  }

  lemma PathOk(vpn: Word)
    ensures IsPath(Path(vpn))
  {
    hide Path, Digit;
    forall i | 0 <= i < 5
      ensures Path(vpn)[i] < 512
    {
      PathIsDigits(vpn, i);
    }
  }

  /** An update through a root never leaves the allocated frames. It fails exactly when the missing
      frames do not fit, and otherwise changes the simple map at one key and nowhere else. */
  lemma UpdateKeeps(mem: Memory, nodes: seq<Node>, table: Table, pt: nat, path: seq<nat>, ppn: Word)
    returns (nodes': seq<Node>)
    requires Shape(mem, nodes) && Holds(mem, nodes, table) && IsPath(path)
    requires pt < |nodes| && nodes[pt].prefix == []
    ensures var w := Update(mem, pt, path, ppn);
      && !w.Fault?
      && (w.OutOfMemory? <==> |mem| + |Passed(Node(pt, []), path[..4]) - NodeSet(nodes)| > NPAGES)
      && (w.At? ==>
            && nodes <= nodes' && NodeSet(nodes') == NodeSet(nodes) + Passed(Node(pt, []), path[..4])
            && Shape(w.mem, nodes') && Holds(w.mem, nodes', Assign(table, Key(pt, path), ppn)))
  {
    hide Holds, Descend, Passed, Assign, EntryOk;
    assert NodeOk(nodes, pt);
    nodes' := DescendKeeps(mem, nodes, table, pt, path[..4]);
    var w := Descend(mem, pt, path[..4]);
    if w.At? {
      assert nodes'[w.frame].prefix == path[..4];
      assert path[..4] + [path[4]] == path;
      StoreKeeps(w.mem, nodes', table, w.frame, path[4], ppn);
    }
  }

  /** With four frames free an update always succeeds. */
  lemma RoomForUpdate(mem: Memory, nodes: seq<Node>, table: Table, pt: nat, path: seq<nat>, ppn: Word)
    requires Shape(mem, nodes) && Holds(mem, nodes, table) && IsPath(path)
    requires pt < |nodes| && nodes[pt].prefix == [] && |mem| + 4 <= NPAGES
    ensures Update(mem, pt, path, ppn).At? && |Update(mem, pt, path, ppn).mem| <= |mem| + 4
  {
    hide Shape, Holds, Passed, NodeSet, Descend, LeafEntry;
    DescendSize(mem, pt, path[..4]);
    var nodes' := UpdateKeeps(mem, nodes, table, pt, path, ppn);
    PassedSize(Node(pt, []), path[..4]);
    FewerWithout(Passed(Node(pt, []), path[..4]), NodeSet(nodes));
    ShapeSizes(mem, nodes);
  }

  lemma {:induction false} DescendSize(mem: Memory, f: nat, path: seq<nat>)
    ensures Descend(mem, f, path).At? ==> |Descend(mem, f, path).mem| <= |mem| + |path|
    decreases |path|
  {
    if path != [] && Touch(mem, f, path[0]).At? {
      DescendSize(Touch(mem, f, path[0]).mem, Touch(mem, f, path[0]).frame, path[1..]);
    }
  }

  lemma {:induction false} PassedSize(n: Node, path: seq<nat>)
    ensures |Passed(n, path)| <= |path|
    decreases |path|
  {
    if path != [] {
      PassedSize(ChildOf(n, path[0]), path[1..]);
    }
  }

  lemma FewerWithout(a: set<Node>, b: set<Node>)
    ensures |a - b| <= |a|
  {
    assert a == (a - b) + (a * b);
  }

  // ---- The query ----

  function Lookup(table: Table, key: Key): Word {
    if key in table then table[key] else 0xFFFF_FFFF_FFFF_FFFF
  }

  lemma {:induction false} AncestorPresent(nodes: seq<Node>, n: Node, k: nat)
    requires forall f :: 0 <= f < |nodes| ==> NodeOk(nodes, f)
    requires n in nodes && k <= |n.prefix|
    ensures Node(n.root, n.prefix[..k]) in nodes
    decreases |n.prefix|
  {
    if k == |n.prefix| {
      assert n.prefix[..k] == n.prefix;
    } else {
      ParentPresent(nodes, n);
      assert ParentOf(n).prefix[..k] == n.prefix[..k];
      AncestorPresent(nodes, ParentOf(n), k);
    }
  }

  /** The walk of a query from any frame answers what the simple map says, and stays inside the
      allocated frames. The `== 0` test of the update and the valid-bit test of the query agree on the
      inner entries. */
  lemma {:induction false} QueryIsLookup(mem: Memory, nodes: seq<Node>, table: Table, f: nat, path: seq<nat>)
    requires Shape(mem, nodes) && Holds(mem, nodes, table) && f < |mem|
    requires 1 <= |path| && |nodes[f].prefix| + |path| == 5 && forall i :: 0 <= i < |path| ==> path[i] < 512
    ensures Query(mem, f, path) == Found(Lookup(table, Key(nodes[f].root, nodes[f].prefix + path)))
    decreases |path|
  {
    var n := nodes[f];
    var key := Key(n.root, n.prefix + path);
    if |path| == 1 {
      assert path == [path[0]];
      assert LeafOk(mem, nodes, table, f, path[0]);
    } else {
      var w, child := mem[f][path[0]], ChildOf(n, path[0]);
      assert EntryOk(mem, nodes, f, path[0]);
      assert child.prefix + path[1..] == n.prefix + path;
      if w % 2 == 0 {
        if key in table {
          assert key.path[..4][..|child.prefix|] == child.prefix;
          AncestorPresent(nodes, Node(key.root, key.path[..4]), |child.prefix|);
        }
      } else {
        QueryIsLookup(mem, nodes, table, w / 4096, path[1..]);
      }
    }
  }
}
