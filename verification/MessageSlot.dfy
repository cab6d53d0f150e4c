/** The message slot module on its own data: linked channels, the minors, the counters and the files. */
module MessageSlot {
  import opened Basics
  import opened Words
  import opened MessageSlotSpec

  class Channel {
    var id: nat
    var message: seq<Byte>     // the buffer `message` points to; a write puts in a new one
    var size: nat
    var next: Channel?
    ghost var live: bool       // not freed
    ghost const minor: Minor   // the slot it belongs to, and where in the list
    ghost const index: nat

    /** `initiate_channel` */
    constructor (channelId: nat, ghost m: Minor, ghost i: nat)
      ensures id == channelId && size == 0 && next == null && |message| == BUFFER_LENGTH
      ensures minor == m && index == i && live
    {
      id, size, next := channelId, 0, null;
      message := seq(BUFFER_LENGTH, _ => 0);
      live, minor, index := true, m, i;
    }
  }

  /** `private_data` */
  class PrivateData {
    const minorNum: Minor
    var channelNum: Word
    ghost const fd: Fd

    constructor (m: Minor, garbage: Word, ghost g: Fd)
      ensures minorNum == m && channelNum == garbage && fd == g
    {
      minorNum, channelNum, fd := m, garbage, g;
    }
  }

  /** The nodes from `root` on, in order, each knowing its slot and its place. */
  ghost predicate Chain(root: Channel?, chain: seq<Channel>, m: Minor)
    reads chain
  {
    Linked(root, chain, m) && forall i :: 0 <= i < |chain| ==> chain[i].live
  }

  ghost predicate Linked(root: Channel?, chain: seq<Channel>, m: Minor)
    reads chain
  {
    && (root == if chain == [] then null else chain[0])
    && (forall i :: 0 <= i < |chain| - 1 ==> chain[i].next == chain[i + 1])
    && (chain != [] ==> chain[|chain| - 1].next == null)
    && (forall i :: 0 <= i < |chain| ==> chain[i].minor == m && chain[i].index == i)
  }

  ghost function Last(chain: seq<Channel>): Channel
    requires chain != []
  {
    chain[|chain| - 1]
  }

  /** What a channel holds. */
  datatype Entry = Entry(id: nat, size: nat, message: seq<Byte>)

  ghost function Entries(chain: seq<Channel>): (entries: seq<Entry>)
    reads chain
    ensures |entries| == |chain|
    ensures forall i :: 0 <= i < |chain| ==> entries[i] == Entry(chain[i].id, chain[i].size, chain[i].message)
  {
    seq(|chain|, i requires 0 <= i < |chain| reads chain => Entry(chain[i].id, chain[i].size, chain[i].message))
  }

  /** The list holds each channel once, with its message. */
  ghost predicate Lists(entries: seq<Entry>, channels: Channels) {
    && |entries| == |channels|
    && (forall i :: 0 <= i < |entries| ==> IsListed(entries[i], channels))
    && (forall i, j :: 0 <= i < j < |entries| ==> entries[i].id != entries[j].id)
    && (forall id :: id in channels ==> exists i :: 0 <= i < |entries| && entries[i].id == id)
  }

  ghost predicate IsListed(e: Entry, channels: Channels) {
    && e.size <= BUFFER_LENGTH == |e.message|
    && e.id in channels && channels[e.id] == e.message[..e.size]
  }

  /** `find_channel`: NULL exactly when no channel has the id. */
  method FindChannel(root: Channel?, channelId: nat, ghost chain: seq<Channel>, ghost m: Minor) returns (node: Channel?)
    requires Chain(root, chain, m)
    ensures node == null <==> forall i :: 0 <= i < |chain| ==> chain[i].id != channelId
    ensures node != null ==> node in chain && node.id == channelId
  {
    node := root;
    ghost var k := 0;
    while node != null
      invariant 0 <= k <= |chain| && node == if k < |chain| then chain[k] else null
      invariant forall i :: 0 <= i < k ==> chain[i].id != channelId
      decreases |chain| - k
    {
      if node.id == channelId {
        return;
      }
      node := node.next;
      k := k + 1;
    }
  }

  /** `add_node`: the list gets one node at its end and keeps all others. */
  method AddNode(root: Channel, newNode: Channel, ghost chain: seq<Channel>, ghost m: Minor)
    requires chain != [] && Chain(root, chain, m)
    requires newNode.next == null && newNode.minor == m && newNode.index == |chain| && newNode.live
    modifies Last(chain)`next
    ensures Chain(root, chain + [newNode], m)
    ensures Entries(chain + [newNode]) == old(Entries(chain + [newNode]))
  {
    var node := root;
    ghost var k := 0;
    while node.next != null
      invariant 0 <= k < |chain| && node == chain[k] && Chain(root, chain, m)
      invariant Entries(chain + [newNode]) == old(Entries(chain + [newNode]))
      decreases |chain| - k
    {
      node := node.next;
      k := k + 1;
    }
    OnlyLastEnds(root, chain, m, k);
    node.next := newNode;
  }

  lemma AppendLists(entries: seq<Entry>, e: Entry, channels: Channels)
    requires Lists(entries, channels)
    requires e.id !in channels && e.size == 0 && |e.message| == BUFFER_LENGTH
    ensures Lists(entries + [e], channels[e.id := []])
  {
    var entries', channels' := entries + [e], channels[e.id := []];
    assert e.message[..0] == [];
    forall i | 0 <= i < |entries'|
      ensures IsListed(entries'[i], channels')
    {
      if i < |entries| {
        assert IsListed(entries[i], channels);
      }
    }
    forall id | id in channels'
      ensures exists i :: 0 <= i < |entries'| && entries'[i].id == id
    {
      if id == e.id {
        assert entries'[|entries|] == e;
      } else {
        var i :| 0 <= i < |entries| && entries[i].id == id;
        assert entries'[i] == entries[i];
      }
    }
  }

  lemma OnlyLastEnds(root: Channel?, chain: seq<Channel>, m: Minor, k: nat)
    requires Chain(root, chain, m) && k < |chain| && chain[k].next == null
    ensures k == |chain| - 1
  {
    forall i | 0 <= i < |chain| - 1
      ensures chain[i].next != null
    {
      assert chain[i].next == chain[i + 1];
    }
  }

  ghost predicate FileOk(data: PrivateData, fd: Fd, file: File)
    reads data
  {
    data.fd == fd && file == File(data.minorNum, data.channelNum)
  }

  /** `message_slot`: the list of channels of one minor. */
  class SlotRecord {
    var channelsRoot: Channel?
    ghost const minor: Minor
    ghost var chain: seq<Channel>
    ghost var channels: Channels         // what the list stands for

    ghost predicate Valid()
      reads this, chain
    {
      Means()
    }

    /** Kept apart from `Valid`, so that proofs about the other minors can leave it folded. */
    ghost predicate Means()
      reads this, chain
    {
      Chain(channelsRoot, chain, minor) && Lists(Entries(chain), channels)
    }

    constructor (ghost m: Minor)
      ensures Valid() && minor == m && chain == [] && channels == map[]
    {
      channelsRoot, minor, chain, channels := null, m, [], map[];
    }

    method Find(channelId: nat) returns (node: Channel?)
      requires Valid()
      ensures node == null <==> channelId !in channels
      ensures node != null ==> node in chain && node.id == channelId
      ensures node != null ==>
        node.size <= BUFFER_LENGTH == |node.message| && channels[channelId] == node.message[..node.size]
    {
      hide Lists, Chain, Entries, IsListed;
      node := FindChannel(channelsRoot, channelId, chain, minor);
      IdsOf(chain, channels, channelId);
      if node != null {
        Listed(channelsRoot, chain, channels, minor, node);
      }
    }

    lemma RootIsNull()
      requires Valid()
      ensures channelsRoot == null <==> channels == map[]
      ensures channelsRoot == null <==> chain == []
      ensures chain != [] ==> Last(chain) in chain
      ensures forall c :: c in chain ==> c.minor == minor
    {
      EmptyOrNot(channelsRoot, chain, channels, minor);
    }

    lemma IsChain()
      requires Valid()
      ensures Chain(channelsRoot, chain, minor)
    {
    }

    /** The list of an empty slot gets its first channel. */
    method SetRoot(channelId: nat)
      requires Valid() && channels == map[]
      modifies this
      ensures Valid() && channels == map[channelId := []]
      ensures forall c :: c in chain ==> c.minor == minor && fresh(c)
    {
      hide Lists;
      var currChannel := new Channel(channelId, minor, 0);
      channelsRoot := currChannel;
      chain, channels := [currChannel], map[channelId := []];
      FirstChannel(currChannel, minor);
    }

    /** The list of a slot gets one more channel, at its end. */
    method Append(channelId: nat)
      requires Valid() && chain != [] && channelId !in channels
      modifies this, Last(chain)
      ensures Valid() && channels == old(channels)[channelId := []]
      ensures forall c :: c in chain ==> c.minor == minor && (c in old(chain) || fresh(c))
    {
      hide Lists, Chain, Entries;
      RootIsNull();
      var currChannel := new Channel(channelId, minor, |chain|);
      NextChannel(chain, currChannel, channels);
      AddNode(channelsRoot, currChannel, chain, minor);
      chain, channels := chain + [currChannel], channels[channelId := []];
    }

    /** A channel gets the message of a write: the last lines of `device_write`. */
    method Put(currChannel: Channel, size: nat, message: seq<Byte>)
      requires Valid() && currChannel in chain && size <= BUFFER_LENGTH == |message|
      modifies this`channels, currChannel
      ensures Valid() && channels == old(channels)[old(currChannel.id) := message[..size]]
      ensures |channels| == |old(channels)|
    {
      hide Lists;
      ghost var entries, i := Entries(chain), currChannel.index;
      IndexOf(channelsRoot, chain, minor, currChannel);
      ReplaceLists(entries, i, Entry(currChannel.id, size, message), channels);
      currChannel.size := size;
      currChannel.message := message;
      channels := channels[currChannel.id := message[..size]];
      assert Entries(chain) == entries[i := Entry(currChannel.id, size, message)];
    }
  }

  /** `kfree`: of something that has not been freed. */
  method KFree(c: Channel)
    requires c.live
    modifies c`live
    ensures !c.live
  {
    c.live := false;
  }

  /** The inner loop of `finalize`: every node is freed once, and reset before that. */
  method FreeChannels(root: Channel?, ghost chain: seq<Channel>, ghost m: Minor)
    requires Chain(root, chain, m)
    modifies chain
    ensures forall c :: c in chain ==> !c.live && c.size == 0 && c.id == 0
  {
    var node := root;
    ghost var k := 0;
    while node != null
      invariant 0 <= k <= |chain| && node == if k < |chain| then chain[k] else null
      invariant Linked(root, chain, m)
      invariant forall i :: k <= i < |chain| ==> chain[i].live
      invariant forall i :: 0 <= i < k ==> !chain[i].live && chain[i].size == 0 && chain[i].id == 0
      decreases |chain| - k
    {
      StepAlong(root, chain, m, k);
      var nextNode := node.next;
      node.size := 0;
      node.id := 0;
      KFree(node);
      node := nextNode;
      k := k + 1;
    }
  }

  lemma StepAlong(root: Channel?, chain: seq<Channel>, m: Minor, k: nat)
    requires Linked(root, chain, m) && k < |chain|
    ensures chain[k].next == if k + 1 < |chain| then chain[k + 1] else null
    ensures forall i :: 0 <= i < |chain| && i != k ==> chain[i] != chain[k]
  {
    if k + 1 < |chain| {
      assert chain[k].next == chain[k + 1];
    }
  }

  /** A channel of the list gets another message. */
  lemma ReplaceLists(entries: seq<Entry>, i: nat, e: Entry, channels: Channels)
    requires Lists(entries, channels) && i < |entries| && e.id == entries[i].id
    requires e.size <= BUFFER_LENGTH == |e.message|
    ensures Lists(entries[i := e], channels[e.id := e.message[..e.size]])
    ensures |channels[e.id := e.message[..e.size]]| == |channels|
  {
    var entries', channels' := entries[i := e], channels[e.id := e.message[..e.size]];
    assert IsListed(entries[i], channels);
    SameKeys(channels, e.id, e.message[..e.size]);
    forall j | 0 <= j < |entries'|
      ensures IsListed(entries'[j], channels')
    {
      assert IsListed(entries[j], channels);
    }
    forall id | id in channels'
      ensures exists j :: 0 <= j < |entries'| && entries'[j].id == id
    {
      var j :| 0 <= j < |entries| && entries[j].id == id;
      assert entries'[j].id == id;
    }
  }

  lemma SameKeys(channels: Channels, id: nat, message: seq<Byte>)
    requires id in channels
    ensures |channels[id := message]| == |channels|
  {
    assert channels[id := message].Keys == channels.Keys;
    assert |channels[id := message]| == |channels[id := message].Keys| == |channels.Keys|;
  }

  /** One minor: its record and counter, against what it stands for. */
  ghost predicate MinorOk(record: SlotRecord?, counter: nat, slot: Slot)
    reads record, if record == null then [] else record.chain
  {
    if record == null then slot.Absent? && counter == 0
    else slot == Present(record.channels) && record.Valid() && counter == Counter(|record.channels|)
  }

  class Devices {
    const minors: array<SlotRecord?>
    const numOfChannels: array<nat>      // pointers, as numbers
    var numOfDrivers: nat
    ghost var slots: Slots               // what the minors stand for
    ghost var Repr: set<object>

    ghost predicate Owns()
      reads this, minors, Repr
    {
      && minors.Length == numOfChannels.Length == 256 && {this, minors, numOfChannels} <= Repr
      && (forall m: Minor :: minors[m] != null ==> minors[m] in Repr && minors[m].minor == m)
      && (forall m: Minor, c :: minors[m] != null && c in minors[m].chain ==> c in Repr && c.minor == m)
    }

    ghost predicate Valid()
      reads this, minors, Repr
    {
      Owns() && StandsFor()
    }

    ghost predicate StandsFor()
      requires Owns()
      reads this, minors, Repr
    {
      && (forall m: Minor :: MinorOk(minors[m], numOfChannels[m], slots[m]))
      && numOfDrivers == Drivers(slots)
    }

    /** `prepare` */
    constructor ()
      ensures Valid() && fresh(Repr) && slots == Loaded().slots
    {
      hide Drivers, SlotRecord.Means;
      minors := new SlotRecord?[MINORS_LIMIT](_ => null);
      numOfChannels := new nat[MINORS_LIMIT](_ => 0);
      numOfDrivers, slots := 0, Loaded().slots;
      new;
      Repr := {this, minors, numOfChannels};
      NoDrivers(slots);
    }

    /** The slot of a minor, from `device_open`. The counter always leaves room for it, so `-ENOSPC` is
        never returned. */
    method OpenSlot(minorNum: Minor) returns (r: int)
      requires Valid()
      modifies Repr
      ensures Valid() && fresh(Repr - old(Repr)) && r == 0
      ensures slots == if old(slots)[minorNum].Absent? then old(slots)[minorNum := Present(map[])] else old(slots)
    {
      hide Drivers, SlotRecord.Means;
      var slot := minors[minorNum];
      assert MinorOk(minors[minorNum], numOfChannels[minorNum], slots[minorNum]);
      r := 0;
      if slot == null {
        DriversUpdate(slots, minorNum, Present(map[]));
        if numOfDrivers == MINORS_LIMIT {
          return -ENOSPC;
        }
        var currentSlot := new SlotRecord(minorNum);
        minors[minorNum] := currentSlot;
        Repr := Repr + {currentSlot};
        slots := slots[minorNum := Present(map[])];
        numOfDrivers := numOfDrivers + 1;
      }
    }

    /** The second half of `ioctl`: the channel of a minor, created if the list does not have it. The
        counter is advanced twice for the first one. */
    method SelectChannel(minorNum: Minor, channelNum: Word) returns (r: int)
      requires Valid()
      modifies Repr
      ensures Valid() && fresh(Repr - old(Repr))
      ensures Selection(slots, r) == Select(old(slots), minorNum, channelNum % UINT)
    {
      hide Drivers, SlotRecord.Means;
      var currSlot := minors[minorNum];
      assert MinorOk(minors[minorNum], numOfChannels[minorNum], slots[minorNum]);
      if currSlot == null {
        return -EINVAL;
      }
      currSlot.RootIsNull();
      if currSlot.channelsRoot == null {
        CreateFirst(currSlot, minorNum, channelNum);
        return 0;
      }
      var currChannel := currSlot.Find(channelNum % UINT);
      if currChannel == null {
        if numOfChannels[minorNum] >= CHANNELS_LIMIT {
          return -1;
        }
        CreateNext(currSlot, minorNum, channelNum);
      }
      return 0;
    }

    method CreateFirst(currSlot: SlotRecord, minorNum: Minor, channelNum: Word)
      requires Valid() && currSlot == minors[minorNum] && currSlot.channels == map[]
      modifies Repr
      ensures Valid() && fresh(Repr - old(Repr))
      ensures slots == old(slots)[minorNum := Present(map[channelNum % UINT := []])]
      ensures numOfChannels[minorNum] == old(numOfChannels[minorNum]) + 2 * STRIDE
    {
      hide Drivers, SlotRecord.Means;
      assert MinorOk(currSlot, numOfChannels[minorNum], slots[minorNum]);
      numOfChannels[minorNum] := numOfChannels[minorNum] + STRIDE;
      currSlot.SetRoot(channelNum % UINT);
      numOfChannels[minorNum] := numOfChannels[minorNum] + STRIDE;
      Recorded(minorNum);
    }

    method CreateNext(currSlot: SlotRecord, minorNum: Minor, channelNum: Word)
      requires Valid() && currSlot == minors[minorNum] && currSlot.channels != map[]
      requires channelNum % UINT !in currSlot.channels
      modifies Repr
      ensures Valid() && fresh(Repr - old(Repr))
      ensures slots == old(slots)[minorNum := Present(old(currSlot.channels)[channelNum % UINT := []])]
      ensures numOfChannels[minorNum] == old(numOfChannels[minorNum]) + STRIDE
    {
      hide Drivers, SlotRecord.Means, Last;
      assert MinorOk(currSlot, numOfChannels[minorNum], slots[minorNum]);
      currSlot.RootIsNull();
      currSlot.Append(channelNum % UINT);
      numOfChannels[minorNum] := numOfChannels[minorNum] + STRIDE;
      Recorded(minorNum);
    }

    /** `find_channel` on the list of a minor that has a slot. */
    method Find(minorNum: Minor, channelNum: Word) returns (node: Channel?)
      requires Valid() && slots[minorNum].Present?
      ensures node == null <==> channelNum % UINT !in slots[minorNum].channels
      ensures node != null ==>
        && node.size <= BUFFER_LENGTH == |node.message| && node.id == channelNum % UINT
        && slots[minorNum].channels[node.id] == node.message[..node.size]
      ensures node != null ==> minors[minorNum] != null && node in minors[minorNum].chain
    {
      hide Drivers, SlotRecord.Means;
      assert MinorOk(minors[minorNum], numOfChannels[minorNum], slots[minorNum]);
      node := minors[minorNum].Find(channelNum % UINT);
    }

    /** The last lines of `device_write`. */
    method Put(minorNum: Minor, node: Channel, size: nat, message: seq<Byte>)
      requires Valid() && minors[minorNum] != null && node in minors[minorNum].chain
      requires size <= BUFFER_LENGTH == |message|
      modifies Repr
      ensures Valid() && fresh(Repr - old(Repr)) && old(slots)[minorNum].Present?
      ensures slots == old(slots)[minorNum := Present(old(slots)[minorNum].channels[old(node.id) := message[..size]])]
    {
      hide Drivers, SlotRecord.Means;
      assert MinorOk(minors[minorNum], numOfChannels[minorNum], slots[minorNum]);
      HasId(minorNum, node);
      forall n: Minor | minors[n] != null && node in minors[n].chain
        ensures n == minorNum
      {
        HasId(n, node);
      }
      minors[minorNum].Put(node, size, message);
      Recorded(minorNum);
    }

    /** Exactly the channels and slots of the minors below `k` have been freed. */
    ghost predicate FreedBelow(k: nat, freed: set<Channel>, freedSlots: set<SlotRecord>)
      requires minors.Length == 256
      reads minors, set m | 0 <= m < 256 :: minors[m], freed
    {
      FreedExactly(k, freed, freedSlots)
    }

    ghost predicate FreedExactly(k: nat, freed: set<Channel>, freedSlots: set<SlotRecord>)
      requires minors.Length == 256
      reads minors, set m | 0 <= m < 256 :: minors[m], freed
    {
      && (forall m: Minor :: m < k && minors[m] != null ==> minors[m] in freedSlots)
      && (forall m: Minor, c :: m < k && minors[m] != null && c in minors[m].chain ==> c in freed)
      && (forall r :: r in freedSlots ==> r.minor < k && minors[r.minor] == r)
      && (forall c :: c in freed ==> c.minor < k && minors[c.minor] != null && c in minors[c.minor].chain)
      && (forall c :: c in freed ==> !c.live && c.size == 0 && c.id == 0)
    }

    lemma ChainsApart(m: Minor)
      requires Owns() && minors[m] != null
      ensures forall n: Minor, c :: n != m && minors[n] != null && c in minors[n].chain ==> c !in minors[m].chain
    {
      forall n: Minor, c | n != m && minors[n] != null && c in minors[n].chain
        ensures c !in minors[m].chain
      {
        assert c.minor == n;
      }
    }

    /** The channels of one minor, freed: nothing else has changed. */
    method FreeMinor(m: Minor, ghost freed: set<Channel>, ghost freedSlots: set<SlotRecord>)
      returns (ghost freed': set<Channel>)
      requires Owns() && minors[m] != null && minors[m].Valid() && FreedBelow(m, freed, freedSlots)
      modifies minors[m].chain
      ensures forall n: Minor :: n != m && old(MinorOk(minors[n], numOfChannels[n], slots[n])) ==>
        MinorOk(minors[n], numOfChannels[n], slots[n])
      ensures Owns() && minors[m] !in freedSlots && FreedBelow(m + 1, freed', freedSlots + {minors[m]})
    {
      hide SlotRecord.Means, Chain;
      minors[m].IsChain();
      ChainsApart(m);
      FreeChannels(minors[m].channelsRoot, minors[m].chain, m);
      freed' := freed + set c | c in minors[m].chain;
    }

    /** `finalize`: every channel and every slot is freed once, and the count of drivers is back at 0. */
    method Finalize() returns (ghost freed: set<Channel>, ghost freedSlots: set<SlotRecord>)
      requires Valid()
      modifies Repr
      ensures numOfDrivers == 0 && Owns() && FreedBelow(MINORS_LIMIT, freed, freedSlots)
      ensures forall m: Minor :: minors[m] == old(minors[m])
      ensures forall m: Minor :: minors[m] != null ==> minors[m].chain == old(minors[m].chain)
    {
      hide Drivers, SlotRecord.Means, FreedExactly;
      var dbzy := 0;
      freed, freedSlots := {}, {};
      NothingFreed();
      while dbzy < MINORS_LIMIT
        invariant 0 <= dbzy <= MINORS_LIMIT && Owns() && Repr == old(Repr)
        invariant forall m: Minor :: minors[m] == old(minors[m])
        invariant forall m: Minor :: minors[m] != null ==> minors[m].chain == old(minors[m].chain)
        invariant numOfDrivers == Drivers(slots[dbzy..])
        invariant forall m: Minor :: dbzy <= m ==> MinorOk(minors[m], numOfChannels[m], slots[m])
        invariant FreedBelow(dbzy, freed, freedSlots)
      {
        DriversFirst(slots, dbzy);
        if minors[dbzy] != null {
          freed := FreeMinor(dbzy, freed, freedSlots);
          freedSlots := freedSlots + {minors[dbzy]};
          numOfDrivers := numOfDrivers - 1;
        } else {
          NoneToFree(dbzy, freed, freedSlots);
        }
        dbzy := dbzy + 1;
      }
    }

    lemma NothingFreed()
      requires minors.Length == 256
      ensures FreedBelow(0, {}, {})
    {
    }

    lemma NoneToFree(m: Minor, freed: set<Channel>, freedSlots: set<SlotRecord>)
      requires minors.Length == 256 && minors[m] == null && FreedBelow(m, freed, freedSlots)
      ensures FreedBelow(m + 1, freed, freedSlots)
    {
    }

    lemma HasId(m: Minor, node: Channel)
      requires Valid() && minors[m] != null && node in minors[m].chain
      ensures slots[m].Present? && node.id in slots[m].channels && node.minor == m
    {
      var record := minors[m];
      assert MinorOk(record, numOfChannels[m], slots[m]);
      IndexOf(record.channelsRoot, record.chain, m, node);
      assert IsListed(Entries(record.chain)[node.index], record.channels);
    }

    /** All minors but `m`, whose list has just changed. */
    ghost predicate ValidBut(m: Minor)
      requires minors.Length == 256
      reads this, minors, numOfChannels, Repr, minors[m]
    {
      && numOfChannels.Length == 256 && {this, minors, numOfChannels} <= Repr
      && (forall n: Minor :: minors[n] != null ==> minors[n] in Repr && minors[n].minor == n)
      && (forall n: Minor, c :: n != m && minors[n] != null && c in minors[n].chain ==> c in Repr && c.minor == n)
      && (forall n: Minor :: n != m ==> MinorOk(minors[n], numOfChannels[n], slots[n]))
      && numOfDrivers == Drivers(slots) && slots[m].Present?
      && minors[m] != null && (forall c :: c in minors[m].chain ==> c.minor == m)
    }

    /** The slot of `m` stands for what its list has become. */
    ghost method Recorded(m: Minor)
      requires minors.Length == 256 && ValidBut(m) && minors[m].Valid()
      requires numOfChannels[m] == Counter(|minors[m].channels|)
      modifies this`slots, this`Repr
      ensures Valid() && slots == old(slots)[m := Present(minors[m].channels)]
      ensures Repr == old(Repr) + set c | c in minors[m].chain :: c as object
    {
      hide Drivers, SlotRecord.Means;
      DriversUpdate(slots, m, Present(minors[m].channels));
      slots := slots[m := Present(minors[m].channels)];
      Repr := Repr + set c | c in minors[m].chain :: c as object;
    }
  }

  lemma IndexOf(root: Channel?, chain: seq<Channel>, m: Minor, c: Channel)
    requires Chain(root, chain, m) && c in chain
    ensures c.index < |chain| && chain[c.index] == c
    ensures forall i :: 0 <= i < |chain| && i != c.index ==> chain[i] != c
  {
  }

  lemma EmptyOrNot(root: Channel?, chain: seq<Channel>, channels: Channels, m: Minor)
    requires Chain(root, chain, m) && Lists(Entries(chain), channels)
    ensures root == null <==> chain == []
    ensures chain == [] <==> channels == map[]
  {
    if chain == [] {
      assert channels.Keys == {};
    }
  }

  lemma IdsOf(chain: seq<Channel>, channels: Channels, id: nat)
    requires Lists(Entries(chain), channels)
    ensures id in channels <==> exists i :: 0 <= i < |chain| && chain[i].id == id
  {
    forall i | 0 <= i < |chain|
      ensures chain[i].id in channels
    {
      assert IsListed(Entries(chain)[i], channels);
    }
    if id in channels {
      var i :| 0 <= i < |chain| && Entries(chain)[i].id == id;
    }
  }

  /** A channel of the list and its message. */
  lemma Listed(root: Channel?, chain: seq<Channel>, channels: Channels, m: Minor, node: Channel)
    requires Chain(root, chain, m) && Lists(Entries(chain), channels) && node in chain
    ensures node.size <= BUFFER_LENGTH == |node.message| && node.id in channels
    ensures channels[node.id] == node.message[..node.size]
  {
    IndexOf(root, chain, m, node);
    assert IsListed(Entries(chain)[node.index], channels);
  }

  lemma FirstChannel(c: Channel, m: Minor)
    requires c.size == 0 && c.next == null && |c.message| == BUFFER_LENGTH && c.minor == m && c.index == 0 && c.live
    ensures Chain(c, [c], m) && Lists(Entries([c]), map[c.id := []])
  {
    AppendLists([], Entry(c.id, c.size, c.message), map[]);
    assert Entries([c]) == [] + [Entry(c.id, c.size, c.message)];
  }

  lemma NextChannel(chain: seq<Channel>, c: Channel, channels: Channels)
    requires Lists(Entries(chain), channels)
    requires c.id !in channels && c.size == 0 && |c.message| == BUFFER_LENGTH
    ensures Lists(Entries(chain + [c]), channels[c.id := []])
  {
    AppendLists(Entries(chain), Entry(c.id, c.size, c.message), channels);
    assert Entries(chain + [c]) == Entries(chain) + [Entry(c.id, c.size, c.message)];
  }

  lemma DriversFirst(slots: seq<Slot>, k: nat)
    requires k < |slots|
    ensures Drivers(slots[k..]) == (if slots[k].Absent? then 0 else 1) + Drivers(slots[k + 1..])
  {
    assert slots[k..][1..] == slots[k + 1..];
  }

  lemma {:induction false} NoDrivers(slots: seq<Slot>)
    requires forall m :: 0 <= m < |slots| ==> slots[m].Absent?
    ensures Drivers(slots) == 0
  {
    if slots != [] {
      NoDrivers(slots[1..]);
    }
  }

  /** What `get_user` delivers for `length` bytes of the user's memory. */
  function Delivered(memory: seq<Byte>, length: nat, fault: nat -> Byte): (data: seq<Byte>)
    ensures |data| == length
  {
    seq(length, i requires 0 <= i < length => if i < |memory| then memory[i] else fault(i))
  }

  /** The loop of `device_write`. */
  method CopyIn(buffer: array<Byte>, length: nat, fault: nat -> Byte, writtenMessage: array<Byte>)
    returns (mrtbka: nat)
    requires length <= writtenMessage.Length && buffer != writtenMessage
    modifies writtenMessage
    ensures mrtbka == length && writtenMessage[..length] == Delivered(buffer[..], length, fault)
  {
    mrtbka := 0;
    while mrtbka < length
      invariant 0 <= mrtbka <= length
      invariant forall i :: 0 <= i < mrtbka ==> writtenMessage[i] == if i < buffer.Length then buffer[i] else fault(i)
    {
      writtenMessage[mrtbka] := if mrtbka < buffer.Length then buffer[mrtbka] else fault(mrtbka);
      mrtbka := mrtbka + 1;
    }
  }

  /** The loop of `device_read`: the bytes go to the buffer one by one, until one cannot be put there. */
  method CopyOut(message: seq<Byte>, messageSize: nat, buffer: array<Byte>) returns (r: int)
    requires messageSize <= |message|
    modifies buffer
    ensures r == if messageSize <= buffer.Length then messageSize else -EFAULT
    ensures var n := if messageSize <= buffer.Length then messageSize else buffer.Length;
      buffer[..] == message[..n] + old(buffer[..])[n..]
  {
    var mrtbka := 0;
    while mrtbka < messageSize
      invariant 0 <= mrtbka <= messageSize && mrtbka <= buffer.Length
      invariant forall i :: 0 <= i < mrtbka ==> buffer[i] == message[i]
      invariant forall i :: mrtbka <= i < buffer.Length ==> buffer[i] == old(buffer[i])
    {
      if mrtbka >= buffer.Length {
        return -EFAULT;
      }
      buffer[mrtbka] := message[mrtbka];
      mrtbka := mrtbka + 1;
    }
    return mrtbka;
  }

  class Module {
    const devices: Devices
    var files: map<Fd, PrivateData>      // private_data of the open files
    ghost var openFiles: map<Fd, File>   // what the files stand for

    /** The private data of the open files, kept apart from the objects of the device. */
    ghost predicate FilesOk()
      reads this, devices`Repr, files.Values
    {
      && this !in devices.Repr
      && (forall fd :: fd in files <==> fd in openFiles)
      && (forall fd :: fd in files ==> files[fd] !in devices.Repr && FileOk(files[fd], fd, openFiles[fd]))
    }

    ghost predicate Valid()
      reads this, devices, devices.minors, devices.Repr, files.Values
    {
      && devices.Valid() && FilesOk()
      && (forall fd :: fd in openFiles ==> devices.slots[openFiles[fd].minor].Present?)
    }

    ghost function AsState(): State
      reads this, devices
    {
      State(devices.slots, openFiles)
    }

    constructor ()
      ensures Valid() && fresh(devices) && fresh(devices.Repr) && files == map[] && AsState() == Loaded()
    {
      devices := new Devices();
      files, openFiles := map[], map[];
    }

    /** The private data of a newly opened file. */
    method AddFile(fd: Fd, minorNum: Minor, garbage: Word)
      requires devices.Valid() && FilesOk() && fd !in files
      modifies this
      ensures devices.Valid() && FilesOk() && openFiles == old(openFiles)[fd := File(minorNum, garbage)]
      ensures fd in files && files == old(files)[fd := files[fd]] && fresh(files[fd])
    {
      hide Drivers, Devices.Owns, Devices.StandsFor;
      var dbzy := new PrivateData(minorNum, garbage, fd);
      files := files[fd := dbzy];
      openFiles := openFiles[fd := File(minorNum, garbage)];
    }

    /** `device_open` */
    method DeviceOpen(fd: Fd, minorNum: Minor, garbage: Word) returns (r: int)
      requires Valid() && fd !in files
      modifies this, devices.Repr
      ensures Valid() && AsState() == OpenStep(old(AsState()), fd, minorNum, garbage).state
      ensures OpenStep(old(AsState()), fd, minorNum, garbage).outcome == Done(r, []) && r == 0
      ensures fd in files && files == old(files)[fd := files[fd]] && fresh(files[fd])
      ensures fresh(devices.Repr - old(devices.Repr))
    {
      hide Drivers, Devices.Owns, Devices.StandsFor;
      AddFile(fd, minorNum, garbage);
      r := devices.OpenSlot(minorNum);
    }

    /** The assignments to `channel_num` in the private data. */
    method SetChannelNum(fd: Fd, param: Word)
      requires Valid() && fd in files
      modifies this`openFiles, files[fd]
      ensures Valid() && openFiles == old(openFiles)[fd := File(files[fd].minorNum, param)]
      ensures devices.slots == old(devices.slots) && devices.Repr == old(devices.Repr)
    {
      hide Drivers, Devices.Owns, Devices.StandsFor;
      files[fd].channelNum := param;
      openFiles := openFiles[fd := File(files[fd].minorNum, param)];
    }

    lemma MinorOf(fd: Fd)
      requires Valid() && fd in files
      ensures fd in openFiles && openFiles[fd].minor == files[fd].minorNum
    {
    }

    /** The part of `ioctl` that looks for the channel. */
    method SelectFor(fd: Fd, param: Word) returns (r: int)
      requires Valid() && fd in files
      modifies devices.Repr
      ensures unchanged(this) && fresh(devices.Repr - old(devices.Repr))
      ensures Valid() && Selection(devices.slots, r) == Select(old(devices.slots), files[fd].minorNum, param % UINT)
    {
      hide Drivers, Devices.Owns, Devices.StandsFor;
      r := devices.SelectChannel(files[fd].minorNum, param);
    }

    /** `ioctl` */
    method Ioctl(fd: Fd, commandId: nat, param: Word) returns (r: int)
      requires Valid() && fd in files
      modifies this, files[fd], devices.Repr
      ensures Valid() && files == old(files)
      ensures Step(AsState(), Done(r, [])) == IoctlStep(old(AsState()), fd, commandId, param)
      ensures fresh(devices.Repr - old(devices.Repr))
    {
      hide Drivers, Devices.Owns, Devices.StandsFor, Select, FilesOk;
      MinorOf(fd);
      if param == 0 || commandId != MSG_SLOT_CHANNEL {
        return -EINVAL;
      }
      SetChannelNum(fd, param);
      r := SelectFor(fd, param);
      if r != 0 {
        return;
      }
      SetChannelNum(fd, param);
      assert openFiles == old(openFiles)[fd := File(files[fd].minorNum, param)];
    }

    /** `device_write`: the bytes are copied one by one into a new buffer, which replaces the old one.
        Behind the end of the user's memory `get_user` faults, which goes unnoticed; byte `i` is then
        whatever it leaves, `fault(i)`. */
    method DeviceWrite(fd: Fd, buffer: array?<Byte>, length: nat, fault: nat -> Byte) returns (r: int)
      requires Valid() && fd in files
      modifies devices.Repr
      ensures Valid() && files == old(files) && fresh(devices.Repr - old(devices.Repr))
      ensures Step(AsState(), Done(r, []))
           == WriteStep(old(AsState()), fd,
                        if buffer == null then None else Some(Delivered(old(buffer[..]), length, fault)))
      ensures buffer == null || files[fd].channelNum % 0x1_0000_0000 == 0 ==> r == -22
      ensures buffer != null && files[fd].channelNum % 0x1_0000_0000 != 0 && (length == 0 || length > 128) ==> r == -90
    {
      hide Drivers, Devices.Owns, Devices.StandsFor;
      var minorNumber, channelNum := files[fd].minorNum, files[fd].channelNum;
      if buffer == null || channelNum % UINT == 0 {
        return -EINVAL;
      } else if length == 0 || length > BUFFER_LENGTH {
        return -EMSGSIZE;
      }
      ghost var data := Delivered(buffer[..], length, fault);
      var writtenMessage := new Byte[BUFFER_LENGTH];
      var mrtbka := CopyIn(buffer, length, fault, writtenMessage);
      var currChannel := devices.Find(minorNumber, channelNum);
      if currChannel == null {
        return -EINVAL;
      }
      assert writtenMessage[..][..length] == data;
      devices.Put(minorNumber, currChannel, mrtbka, writtenMessage[..]);
      return mrtbka;
    }

    /** `device_read` into the user's memory; `oops` is the NULL dereference of a channel that does not exist */
    method DeviceRead(fd: Fd, buffer: array?<Byte>, length: nat) returns (oops: bool, r: int)
      requires Valid() && fd in files && (buffer == null || (buffer as object) !in devices.Repr)
      modifies buffer
      ensures Valid() && AsState() == old(AsState())
      ensures var room := if buffer == null then None else Some(buffer.Length);
        var out := ReadStep(old(AsState()), fd, room, length).outcome;
        && (oops <==> out.Oops?) && (!oops ==> out.Done? && r == out.code)
        && (!oops && buffer != null ==>
              |out.data| <= buffer.Length && buffer[..] == out.data + old(buffer[..])[|out.data|..])
      ensures buffer == null ==> !oops && r == -22
      ensures buffer != null && (length == 0 || length > 128) ==> !oops && r == -90
    {
      hide Drivers, Devices.Owns, Devices.StandsFor;
      var minorNumber, channelNum := files[fd].minorNum, files[fd].channelNum;
      oops := false;
      if buffer == null {
        return oops, -EINVAL;
      } else if length == 0 || length > BUFFER_LENGTH {
        assert buffer[..] == [] + old(buffer[..]);
        return oops, -EMSGSIZE;
      }
      var currChannel := devices.Find(minorNumber, channelNum);
      if currChannel == null {
        return true, 0;
      }
      var messageSize := currChannel.size;
      assert buffer[..] == [] + old(buffer[..]);
      if messageSize == 0 {
        return oops, -EWOULDBLOCK;
      } else if messageSize > length {
        return oops, -ENOSPC;
      }
      r := CopyOut(currChannel.message, messageSize, buffer);
    }

    /** `device_release` */
    method DeviceRelease(fd: Fd) returns (r: int)
      requires Valid() && fd in files
      modifies this
      ensures Valid() && Step(AsState(), Done(r, [])) == Exec(old(AsState()), Release(fd)) && r == 0
      ensures files == old(files) - {fd}
    {
      hide Drivers, Devices.Owns, Devices.StandsFor;
      files := files - {fd};
      openFiles := openFiles - {fd};
      return 0;
    }
  }

  // ---- A client ----

  /** Two files on the same minor, both with the same channel selected, and a message written by one. */
  function Talk(minor: Minor, garbage: Word, id: Word, data: seq<Byte>): State {
    var s1 := OpenStep(Loaded(), 3, minor, garbage).state;
    var s2 := OpenStep(s1, 4, minor, garbage).state;
    var s3 := IoctlStep(s2, 3, MSG_SLOT_CHANNEL, id).state;
    var s4 := IoctlStep(s3, 4, MSG_SLOT_CHANNEL, id).state;
    WriteStep(s4, 3, Some(data)).state
  }

  lemma TalkIsHeard(minor: Minor, garbage: Word, id: Word, data: seq<Byte>, room: nat)
    requires id % UINT != 0 && 1 <= |data| <= BUFFER_LENGTH <= room
    ensures 4 in Talk(minor, garbage, id, data).files
    ensures ReadStep(Talk(minor, garbage, id, data), 4, Some(room), BUFFER_LENGTH).outcome == Done(|data|, data)
  {
  }

  /** Two programs with a file each on the same minor: what one writes to a channel the other reads. */
  method Conversation(minor: Minor, garbage: Word, id: Word, text: array<Byte>, page: array<Byte>)
    requires id % UINT != 0 && 1 <= text.Length <= BUFFER_LENGTH <= page.Length && text != page
    modifies page
    ensures page[..text.Length] == text[..]
  {
    hide Module.Valid, OpenStep, IoctlStep, WriteStep, ReadStep;
    ghost var data := Delivered(text[..], text.Length, _ => 0);
    assert data == text[..];
    TalkIsHeard(minor, garbage, id, data, page.Length);
    var slot := new Module();
    var r := slot.DeviceOpen(3, minor, garbage);
    r := slot.DeviceOpen(4, minor, garbage);
    r := slot.Ioctl(3, MSG_SLOT_CHANNEL, id);
    r := slot.Ioctl(4, MSG_SLOT_CHANNEL, id);
    r := slot.DeviceWrite(3, text, text.Length, _ => 0);
    assert slot.AsState() == Talk(minor, garbage, id, data);
    var oops;
    oops, r := slot.DeviceRead(4, page, BUFFER_LENGTH);
  }
}
