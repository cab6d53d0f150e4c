/** os.c and pt.c as they work: arrays of words, allocated one by one, walked and written in place. */
module PageTableOs {
  import opened Words
  import opened PageWords
  import opened PageTable

  ghost function Contents(frames: seq<array<Word>>): (m: Memory)
    requires forall i :: 0 <= i < |frames| ==> frames[i].Length == 512
    reads frames
    ensures |m| == |frames| && forall i :: 0 <= i < |frames| ==> m[i] == frames[i][..]
  {
    seq(|frames|, i requires 0 <= i < |frames| reads frames => frames[i][..])
  }

  class Os {
    const pages: array<array?<Word>>     // the static table of page frames
    var nalloc: nat                      // the static counter of alloc_page_frame
    ghost var frames: seq<array<Word>>   // the frames handed out so far
    ghost var nodes: seq<Node>           // where each frame sits in the trees
    ghost var table: Table               // the mapping the page tables stand for

    /** The first `nalloc` entries of the table are distinct pages of 512 words, the others are NULL. */
    ghost predicate Allocated()
      reads this`nalloc, this`frames, pages
    {
      && pages.Length == NPAGES && nalloc == |frames| <= NPAGES
      && (forall i :: 0 <= i < |frames| ==> pages[i] == frames[i] && frames[i].Length == 512)
      && (forall i :: |frames| <= i < NPAGES ==> pages[i] == null)
      && (forall i, j :: 0 <= i < j < |frames| ==> frames[i] != frames[j])
    }

    ghost function Mem(): Memory
      requires forall i :: 0 <= i < |frames| ==> frames[i].Length == 512
      reads this`frames, frames
    {
      Contents(frames)
    }

    /** The frames form trees whose leaves hold exactly `table`. */
    ghost predicate Valid()
      reads this, pages, frames
    {
      Allocated() && Shape(Mem(), nodes) && Holds(Mem(), nodes, table)
    }

    ghost predicate IsRoot(pt: nat)
      reads this
    {
      pt < |nodes| && nodes[pt] == Node(pt, [])
    }

    constructor ()
      ensures Valid() && fresh(pages) && frames == [] && table == map[]
    {
      pages := new array?<Word>[NPAGES](_ => null);
      nalloc, frames, nodes, table := 0, [], [], map[];
    }

    /** `alloc_page_frame`; `ok` is false where the program exits for want of memory */
    method AllocPageFrame() returns (ok: bool, ppn: Word)
      requires Allocated()
      modifies this`nalloc, this`frames, pages
      ensures Allocated() && (ok <==> |old(frames)| < 1024 * 1024)
      ensures ok ==> ppn == |old(frames)| && |frames| == ppn + 1
      ensures ok ==> frames == old(frames) + [frames[ppn]] && fresh(frames[ppn])
      ensures ok ==> frames[ppn][..] == Zeros()
      ensures !ok ==> frames == old(frames)
    {
      ok, ppn := false, 0;
      if nalloc == NPAGES {
        return;
      }
      ok, ppn := true, nalloc;
      nalloc := nalloc + 1;
      var va := new Word[512](_ => 0);
      pages[ppn] := va;
      frames := frames + [va];
      assert va[..] == Zeros();
    }

    /** `phys_to_virt`: a page and the offset into it. For a page below `NPAGES` that was never allocated
        that is NULL plus the offset, beyond `NPAGES` it is NULL. */
    method PhysToVirt(physAddr: Word) returns (page: array?<Word>, offset: nat)
      requires Allocated()
      ensures page == if physAddr / 4096 < |frames| then frames[physAddr / 4096] else null
      ensures offset == if physAddr / 4096 < 1024 * 1024 then physAddr % 4096 else 0
    {
      var ppn := Shr(physAddr, 12);
      var off := And(physAddr, 0xfff);
      Shr12(physAddr);
      LowTwelve(physAddr);
      page, offset := null, 0;
      if ppn < NPAGES {
        page, offset := pages[ppn], off;
      }
    }

    /** `phys_to_virt` as the walks call it: on the address of a whole page that has been allocated. */
    method PageAt(pageAddress: Word, ghost f: nat) returns (page: array<Word>)
      requires Allocated() && f < |frames| && pageAddress == 4096 * f
      ensures page == frames[f]
    {
      DivUnique(pageAddress, 4096, f, 0);
      var va, offset := PhysToVirt(pageAddress);
      page := va;
      assert offset == 0;
    }

    /** The root of a new page table: what a caller of `alloc_page_frame` gets. */
    method NewTable() returns (ok: bool, pt: Word)
      requires Valid()
      modifies this, pages
      ensures ok <==> old(|frames|) < 1024 * 1024
      ensures ok ==> Valid() && pt == old(|frames|) && Mem() == old(Mem()) + [Zeros()]
      ensures ok ==> IsRoot(pt) && nodes == old(nodes) + [Node(pt, [])] && table == old(table)
      ensures ok ==> |frames| == pt + 1 && frames == old(frames) + [frames[pt]] && fresh(frames[pt])
    {
      ghost var mem := Mem();
      ok, pt := AllocPageFrame();
      if ok {
        RootKeeps(mem, nodes, table);
        nodes := nodes + [Node(pt, [])];
        assert Mem() == mem + [Zeros()];
      }
    }

    /** One iteration of the loop of `page_table_update`, up to the call that finds the next page. */
    method FollowOrAllocate(ptNode: array<Word>, symbol: nat, ghost f: nat) returns (ok: bool, newPageAdd: Word)
      requires Allocated() && f < |frames| && ptNode == frames[f] && symbol < 512
      requires ptNode[symbol] == 0 || ptNode[symbol] == Pointer(ptNode[symbol] / 4096)
      modifies this`nalloc, this`frames, pages, ptNode
      ensures ok <==> Touch(old(Mem()), f, symbol).At?
      ensures !ok ==> Touch(old(Mem()), f, symbol).OutOfMemory?
      ensures ok ==> Allocated() && old(frames) <= frames
      ensures ok ==> forall i :: |old(frames)| <= i < |frames| ==> fresh(frames[i])
      ensures ok ==> Touch(old(Mem()), f, symbol) == At(Mem(), newPageAdd / 4096)
      ensures ok ==> newPageAdd == Pointer(newPageAdd / 4096)
    {
      hide Plus, Shl, Pointer;
      ghost var mem := Mem();
      if ptNode[symbol] == 0 {
        ok, newPageAdd := AllocPageFrame();
        if !ok {
          return;
        }
        ghost var g := newPageAdd;
        PointerWord(g);
        newPageAdd := Plus(Shl(newPageAdd, 12), 1);
        ptNode[symbol] := newPageAdd;
        assert Mem() == mem[f := mem[f][symbol := Pointer(g)]] + [Zeros()];
      } else {
        ok, newPageAdd := true, ptNode[symbol];
        assert Mem() == mem;
      }
    }

    /** The same iteration, with the place of the next page kept up to date. */
    method NextPage(ptNode: array<Word>, symbol: nat, ghost f: nat) returns (ok: bool, newPageAdd: Word)
      requires Valid() && f < |frames| == |nodes| && ptNode == frames[f] && |nodes[f].prefix| < 4 && symbol < 512
      modifies this`nalloc, this`frames, this`nodes, pages, ptNode
      ensures ok <==> Touch(old(Mem()), f, symbol).At?
      ensures !ok ==> Touch(old(Mem()), f, symbol).OutOfMemory?
      ensures ok ==> Valid() && old(frames) <= frames
      ensures ok ==> forall i :: |old(frames)| <= i < |frames| ==> fresh(frames[i])
      ensures ok ==> Touch(old(Mem()), f, symbol) == At(Mem(), newPageAdd / 4096)
      ensures ok ==> newPageAdd / 4096 < |frames| == |nodes| && old(nodes) <= nodes
      ensures ok ==> nodes[newPageAdd / 4096] == ChildOf(old(nodes)[f], symbol)
    {
      hide Shape, Holds, Touch;
      ghost var mem := Mem();
      InnerEntry(mem, nodes, f, symbol);
      ghost var nodes' := TouchKeeps(mem, nodes, table, f, symbol);
      ok, newPageAdd := FollowOrAllocate(ptNode, symbol, f);
      if ok {
        nodes := nodes';
        ShapeSizes(Mem(), nodes);
      }
    }

    /** The last lines of `page_table_update`: one leaf, and so one key of the mapping, changes. */
    method WriteLeaf(ptNode: array<Word>, symbol: nat, ppn: Word, ghost f: nat)
      requires Valid() && f < |frames| == |nodes| && ptNode == frames[f] && |nodes[f].prefix| == 4 && symbol < 512
      modifies this`table, ptNode
      ensures Valid() && Store(old(Mem()), f, symbol, ppn) == At(Mem(), f)
      ensures table == Assign(old(table), LeafKey(nodes[f], symbol), ppn)
      ensures ptNode[symbol] == if ppn == 0xFFFF_FFFF_FFFF_FFFF then old(ptNode[symbol]) - old(ptNode[symbol]) % 2
                                else ppn % 0x10_0000_0000_0000 * 4096 + 1
    {
      hide Shape, Holds, Assign, Shr, Shl, Plus, LeafEntry;
      ghost var mem := Mem();
      StoreKeeps(mem, nodes, table, f, symbol, ppn);
      LeafWord(ptNode[symbol], ppn);
      var finalPte;
      if ppn == NO_MAPPING {
        finalPte := ptNode[symbol];
        finalPte := Shl(Shr(finalPte, 1), 1);
      } else {
        finalPte := Plus(Shl(ppn, 12), 1);
      }
      ptNode[symbol] := finalPte;
      table := Assign(table, LeafKey(nodes[f], symbol), ppn);
      assert Mem() == Store(mem, f, symbol, ppn).mem;
    }

    /** What holds at every head of the loop of `page_table_update`: the walk has come to `f`, and what
        is left of it does the rest. */
    ghost predicate Walking(mem: Memory, pt: nat, path: seq<nat>, layer: nat, f: nat, ptNode: array<Word>)
      requires |path| == 5
      reads this, pages, frames
    {
      && Valid() && 1 <= layer <= 5 && |frames| == |nodes|
      && f < |frames| && ptNode == frames[f] && nodes[f] == Node(pt, path[..layer - 1])
      && Descend(mem, pt, path[..4]) == Descend(Mem(), f, path[layer - 1..4])
    }

    /** The loop body of `page_table_update`, up to line 53: one level further down. */
    method NextLevel(ptNode: array<Word>, currSymbol: nat, ghost mem: Memory, ghost pt: nat, ghost path: seq<nat>,
                     ghost layer: nat, ghost f: nat)
      returns (ok: bool, next: array<Word>, ghost g: nat)
      requires IsPath(path) && layer < 5 && Walking(mem, pt, path, layer, f, ptNode) && currSymbol == path[layer - 1]
      modifies this`nalloc, this`frames, this`nodes, pages, ptNode
      ensures !ok ==> Descend(mem, pt, path[..4]).OutOfMemory?
      ensures ok ==> Walking(mem, pt, path, layer + 1, g, next)
      ensures ok ==> old(nodes) <= nodes && old(frames) <= frames
      ensures ok ==> forall i :: |old(frames)| <= i < |frames| ==> fresh(frames[i])
    {
      hide PageBits, Shape, Holds, Touch, And, Shr, Contents, Descend, Allocated;
      next, g := ptNode, f;
      DescendStep(Mem(), f, path[layer - 1..4]);
      assert path[layer - 1..4][1..] == path[layer..4];
      var newPageAdd;
      ok, newPageAdd := NextPage(ptNode, currSymbol, f);
      if ok {
        g := newPageAdd / 4096;
        PageOf(newPageAdd);
        next := PageAt(And(newPageAdd, PageBits()), g);
      }
    }

    /** `page_table_update`: exactly one key of the mapping changes, or the frames have run out. */
    method PageTableUpdate(pt: Word, vpn: Word, ppn: Word) returns (ok: bool)
      requires Valid() && IsRoot(pt)
      modifies this, pages, frames
      ensures ok <==> PageTable.Update(old(Mem()), pt, Path(vpn), ppn).At?
      ensures !ok ==> PageTable.Update(old(Mem()), pt, Path(vpn), ppn).OutOfMemory?
      ensures ok ==> Valid() && Mem() == PageTable.Update(old(Mem()), pt, Path(vpn), ppn).mem
      ensures ok ==> table == Assign(old(table), Key(pt, Path(vpn)), ppn)
      ensures ok ==> old(nodes) <= nodes && old(frames) <= frames
      ensures ok ==> forall i :: |old(frames)| <= i < |frames| ==> fresh(frames[i])
    {
      hide NineBits, PageBits, Shape, Holds, Touch, Assign, Path, And, Shr, Shl, Shifted, Contents, Descend, Allocated;
      ghost var mem, path := Mem(), Path(vpn);
      ghost var f: nat := pt;
      var nineBitsMsb := NineBits();
      ShapeSizes(mem, nodes);
      RootAddress(pt);
      var ptNode := PageAt(Shl(pt, 12), pt);
      var tempVpn := vpn;
      var currSymbol := Shr(And(tempVpn, nineBitsMsb), 36);
      PathOk(vpn);
      SymbolOnPath(vpn, 0);
      var layer := 1;
      while layer < 5
        invariant Walking(mem, pt, path, layer, f, ptNode)
        invariant tempVpn == Shifted(vpn, layer - 1) && currSymbol == path[layer - 1]
        invariant table == old(table) && old(nodes) <= nodes
        invariant old(frames) <= frames && forall i :: |old(frames)| <= i < |frames| ==> fresh(frames[i])
      {
        assert f < |old(frames)| ==> ptNode == old(frames)[f];
        ok, ptNode, f := NextLevel(ptNode, currSymbol, mem, pt, path, layer, f);
        if !ok {
          return;
        }
        tempVpn := Shl(tempVpn, 9);
        currSymbol := Shr(And(tempVpn, nineBitsMsb), 36);
        SymbolOnPath(vpn, layer);
        layer := layer + 1;
      }
      ok := true;
      assert f < |old(frames)| ==> ptNode == old(frames)[f];
      DescendStep(Mem(), f, path[4..4]);
      WriteLeaf(ptNode, currSymbol, ppn, f);
      assert path[..4] + [path[4]] == path;
    }

    /** `page_table_query`: what the mapping says. */
    method PageTableQuery(pt: Word, vpn: Word) returns (ppn: Word)
      requires Valid() && IsRoot(pt)
      ensures ppn == if Key(pt, Path(vpn)) in table then table[Key(pt, Path(vpn))] else 0xFFFF_FFFF_FFFF_FFFF
      ensures Found(ppn) == Query(Mem(), pt, Path(vpn))
    {
      hide NineBits, PageBits, Shape, Holds, Path, And, Shr, Shl, Query, Shifted, Pointer;
      ghost var mem, path := Mem(), Path(vpn);
      ghost var f: nat := pt;
      var nineBitsMsb := NineBits();
      ShapeSizes(mem, nodes);
      RootAddress(pt);
      var ptNode := PageAt(Shl(pt, 12), pt);
      var tempVpn := vpn;
      var currSymbol := Shr(And(tempVpn, nineBitsMsb), 36);
      PathOk(vpn);
      SymbolOnPath(vpn, 0);
      assert [] + path == path;
      QueryIsLookup(mem, nodes, table, pt, path);
      var layer := 1;
      while layer < 5
        invariant 1 <= layer <= 5 && f < |frames| == |nodes| && ptNode == frames[f]
        invariant nodes[f] == Node(pt, path[..layer - 1])
        invariant tempVpn == Shifted(vpn, layer - 1) && currSymbol == path[layer - 1]
        invariant Query(mem, pt, path) == Query(mem, f, path[layer - 1..])
      {
        var nextPageAdd := ptNode[currSymbol];
        ValidBit(nextPageAdd);
        QueryStep(mem, f, path[layer - 1..]);
        if And(nextPageAdd, 1) == 0 {
          return NO_MAPPING;
        }
        InnerEntry(mem, nodes, f, currSymbol);
        assert path[layer - 1..][1..] == path[layer..];
        f := nextPageAdd / 4096;
        PageOf(nextPageAdd);
        ptNode := PageAt(And(nextPageAdd, PageBits()), f);
        tempVpn := Shl(tempVpn, 9);
        currSymbol := Shr(And(tempVpn, nineBitsMsb), 36);
        SymbolOnPath(vpn, layer);
        layer := layer + 1;
      }
      var finalPte := ptNode[currSymbol];
      ValidBit(finalPte);
      QueryStep(mem, f, path[4..]);
      if And(finalPte, 1) == 0 {
        return NO_MAPPING;
      } else {
        Shr12(finalPte);
        return Shr(finalPte, 12);
      }
    }
  }

  lemma SymbolOnPath(vpn: Word, i: nat)
    requires i < 5
    ensures Shr(And(Shifted(vpn, i), NineBits()), 36) == Path(vpn)[i]
    ensures Shifted(vpn, 0) == vpn && (i > 0 ==> Shifted(vpn, i) == Shl(Shifted(vpn, i - 1), 9))
  {
    hide Shl, Shr, And, NineBits;
  }

  lemma RootAddress(pt: Word)
    requires pt < NPAGES
    ensures Shl(pt, 12) == 4096 * pt
  {
    hide Shl;
    ShlUp(pt, 12);
    Up12(pt);
  }

  lemma LeafWord(w: Word, ppn: Word)
    ensures LeafEntry(w, ppn) == if ppn == NO_MAPPING then Shl(Shr(w, 1), 1) else Plus(Shl(ppn, 12), 1)
    ensures LeafEntry(w, ppn)
         == if ppn == 0xFFFF_FFFF_FFFF_FFFF then w - w % 2 else ppn % 0x10_0000_0000_0000 * 4096 + 1
  {
    hide Shl, Shr, Plus;
    ClearValidBit(w);
    EntryOf(ppn);
  }

  /** An entry of an inner frame is 0 or names an allocated frame one level down. */
  lemma InnerEntry(mem: Memory, nodes: seq<Node>, f: nat, d: nat)
    requires Shape(mem, nodes) && f < |mem| && d < 512 && |nodes[f].prefix| < 4
    ensures mem[f][d] == 0 || mem[f][d] == Pointer(mem[f][d] / 4096)
    ensures mem[f][d] % 2 != 0 ==> mem[f][d] / 4096 < |mem| && nodes[mem[f][d] / 4096] == ChildOf(nodes[f], d)
  {
    assert EntryOk(mem, nodes, f, d);
  }

  lemma DescendStep(mem: Memory, f: nat, path: seq<nat>)
    ensures path == [] ==> Descend(mem, f, path) == At(mem, f)
    ensures path != [] ==> var w := Touch(mem, f, path[0]);
      Descend(mem, f, path) == if w.At? then Descend(w.mem, w.frame, path[1..]) else w
  {
  }

  lemma QueryStep(mem: Memory, f: nat, path: seq<nat>)
    requires path != [] && f < |mem| && path[0] < 512
    ensures mem[f][path[0]] % 2 == 0 ==> Query(mem, f, path) == Found(NO_MAPPING)
    ensures mem[f][path[0]] % 2 != 0 ==>
      Query(mem, f, path)
        == if |path| == 1 then Found(mem[f][path[0]] / 4096) else Query(mem, mem[f][path[0]] / 4096, path[1..])
  {
  }

  lemma PointerWord(ppn: Word)
    requires ppn < NPAGES
    ensures Plus(Shl(ppn, 12), 1) == Pointer(ppn) && Pointer(ppn) / 4096 == ppn
  {
    hide Plus, Shl;
    EntryOf(ppn);
    DivUnique(Pointer(ppn), 4096, ppn, 1);
  }

  lemma LowTwelve(x: Word)
    ensures And(x, 0xfff) == x % 4096
  {
    hide And, Lowest, Up, Ones;
    OnesUp(12);
    Up12(1);
    AndOnes(x, 12);
    LowestMod(x, 12);
  }

  // ---- A client ----

  /** An update and a query of the same page number, where four frames are free. */
  method MapAndAsk(os: Os, pt: Word, vpn: Word, ppn: Word) returns (answer: Word)
    requires os.Valid() && os.IsRoot(pt) && |os.frames| + 4 <= NPAGES
    modifies os, os.pages, os.frames
    ensures os.Valid() && os.IsRoot(pt) && |os.frames| <= |old(os.frames)| + 4
    ensures old(os.frames) <= os.frames && forall i :: |old(os.frames)| <= i < |os.frames| ==> fresh(os.frames[i])
    ensures answer == if ppn == 0xFFFF_FFFF_FFFF_FFFF then 0xFFFF_FFFF_FFFF_FFFF else ppn % 0x10_0000_0000_0000
  {
    hide Shape, Holds, Path, PageTable.Update, Query;
    PathOk(vpn);
    ShapeSizes(os.Mem(), os.nodes);
    RoomForUpdate(os.Mem(), os.nodes, os.table, pt, Path(vpn), ppn);
    var ok := os.PageTableUpdate(pt, vpn, ppn);
    answer := os.PageTableQuery(pt, vpn);
  }

  /** `main` of os.c, the program that tries the page table out, with its assertions. */
  method TryPageTable() returns (before: Word, mapped: Word, after: Word)
    ensures before == 0xFFFF_FFFF_FFFF_FFFF && mapped == 0xf00d && after == 0xFFFF_FFFF_FFFF_FFFF
  {
    hide Shape, Holds, Path, Os.Valid, Os.IsRoot, Os.Mem, Query;
    var os := new Os();
    var ok, pt := os.NewTable();
    before := os.PageTableQuery(pt, 0xcafe);
    mapped := MapAndAsk(os, pt, 0xcafe, 0xf00d);
    after := MapAndAsk(os, pt, 0xcafe, NO_MAPPING);
  }
}
