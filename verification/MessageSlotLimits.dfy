/** How many channels a slot can have: the counter is a pointer, so the limit comes four times too early. */
module MessageSlotLimits {
  import opened Basics
  import opened Words
  import opened MessageSlotSpec
  import opened MessageSlotRuns

  /** Every slot keeps 32-bit ids, messages of at most 128 bytes, and no more channels than this. */
  const MOST_CHANNELS: nat := CHANNELS_LIMIT / STRIDE - 1

  ghost predicate InBounds(channels: Channels) {
    && |channels| <= 262143
    && forall id :: id in channels ==> id < 0x1_0000_0000 && |channels[id]| <= 128
  }

  ghost predicate AllInBounds(s: State) {
    forall m: Minor :: s.slots[m].Present? ==> InBounds(s.slots[m].channels)
  }

  lemma {:induction false} RunInBounds(calls: seq<Call>)
    ensures AllInBounds(Run(calls))
  {
    hide InBounds, OpenStep, IoctlStep, WriteStep;
    if calls != [] {
      var s, call := Run(calls[..|calls| - 1]), calls[|calls| - 1];
      RunInBounds(calls[..|calls| - 1]);
      forall m: Minor | Exec(s, call).state.slots[m].Present?
        ensures InBounds(Exec(s, call).state.slots[m].channels)
      {
        StepInBounds(s, call, m);
      }
    }
  }

  lemma StepInBounds(s: State, call: Call, m: Minor)
    requires s.slots[m].Present? ==> InBounds(s.slots[m].channels)
    requires Exec(s, call).state.slots[m].Present?
    ensures InBounds(Exec(s, call).state.slots[m].channels)
  {
  }

  /** In any run, an `ioctl` for a new channel is refused exactly when the slot has 262143 channels. */
  lemma RefusedExactly(calls: seq<Call>, fd: Fd, param: Word)
    requires param != 0 && IsNew(Run(calls), fd, param % UINT)
    ensures Exec(Run(calls), Ioctl(fd, 0x4008_F000, param)).outcome == Done(-1, [])
       <==> ChannelCount(Run(calls), Run(calls).files[fd].minor) == 262143
  {
    hide Run, InBounds;
    RunInBounds(calls);
    BoundOf(Run(calls), Run(calls).files[fd].minor);
  }

  /** The file is open on a slot without this channel. */
  predicate IsNew(s: State, fd: Fd, id: nat) {
    && fd in s.files && s.slots[s.files[fd].minor].Present?
    && id !in s.slots[s.files[fd].minor].channels
  }

  lemma BoundOf(s: State, m: Minor)
    requires AllInBounds(s) && s.slots[m].Present?
    ensures |s.slots[m].channels| <= MOST_CHANNELS
  {
  }

  /** What an `ioctl` returns, from the history: 0 for a channel that exists or still fits. */
  lemma IoctlReturns(calls: seq<Call>, fd: Fd, command: nat, param: Word)
    ensures Exec(Run(calls), Ioctl(fd, command, param)).outcome ==
      match FileOf(calls, fd)
      case None => Rejected
      case Some(f) =>
        if param == 0 || command != 0x4008_F000 then Done(-22, [])
        else if Exists(calls, Key(f.minor, param % 0x1_0000_0000)) || ChannelCount(Run(calls), f.minor) < 262143
        then Done(0, [])
        else Done(-1, [])
  {
    hide Run, FileOf, Exists, LastWritten, AllInBounds;
    FileIs(calls, fd);
    RunInBounds(calls);
    if FileOf(calls, fd).Some? {
      var f := FileOf(calls, fd).value;
      ChannelIs(calls, Key(f.minor, param % UINT));
      BoundOf(Run(calls), f.minor);
    }
  }

  // ---- The documented limit is not what is enforced ----

  /** One file that selects the channels 1 to n. */
  function Fill(n: nat): seq<Call>
    requires n < WORD_SIZE
  {
    if n == 0 then [Open(0, 0, 0)] else Fill(n - 1) + [Ioctl(0, MSG_SLOT_CHANNEL, n)]
  }

  ghost predicate Filled(s: State, n: nat) {
    && 0 in s.files && s.files[0].minor == 0 && s.slots[0].Present?
    && |s.slots[0].channels| == n
    && forall id :: id in s.slots[0].channels ==> id <= n
  }

  lemma {:induction false} FillState(n: nat)
    requires n <= MOST_CHANNELS
    ensures Filled(Run(Fill(n)), n)
  {
    hide Exec, Filled;
    if n == 0 {
      assert [Open(0, 0, 0)][..0] == [];
      OpenedEmpty();
    } else {
      FillState(n - 1);
      assert Fill(n)[..|Fill(n)| - 1] == Fill(n - 1);
      FillStep(Run(Fill(n - 1)), n);
    }
  }

  lemma OpenedEmpty()
    ensures Filled(Exec(Loaded(), Open(0, 0, 0)).state, 0)
  {
  }

  lemma FillStep(s: State, n: nat)
    requires 1 <= n <= MOST_CHANNELS && Filled(s, n - 1)
    ensures Filled(Exec(s, Ioctl(0, MSG_SLOT_CHANNEL, n)).state, n)
  {
    assert n % UINT == n;
  }

  function ChannelCount(s: State, m: Minor): nat {
    if s.slots[m].Present? then |s.slots[m].channels| else 0
  }

  /** The header allows 1048576 channels, but this run is refused its channel 262144. */
  lemma LimitComesEarly()
    ensures ChannelCount(Run(Fill(262143)), 0) == 262143 < 1048576
    ensures Exec(Run(Fill(262143)), Ioctl(0, 0x4008_F000, 262144)).outcome == Done(-1, [])
  {
    hide Run, Fill;
    FillState(MOST_CHANNELS);
  }
}
