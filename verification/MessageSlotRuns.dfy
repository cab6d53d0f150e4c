/** What any interleaving of calls on many files returns, told from the history of calls alone. */
module MessageSlotRuns {
  import opened Basics
  import opened Words
  import opened MessageSlotSpec

  /** Which channel of which minor a file stands for. */
  datatype Key = Key(minor: Minor, id: nat)

  // ---- The reference: what the calls and their outcomes say ----

  /** The file `fd` after these calls: not open, or open on a minor, with the last number selected since. */
  function FileOf(calls: seq<Call>, fd: Fd): Option<File> {
    if calls == [] then None else
      var before, call := FileOf(calls[..|calls| - 1], fd), calls[|calls| - 1];
      match call
      case Open(g, minor, garbage) => if g == fd && before.None? then Some(File(minor, garbage)) else before
      case Release(g) => if g == fd then None else before
      case Ioctl(g, command, param) =>
        if g == fd && before.Some? && param != 0 && command == 0x4008_F000
        then Some(File(before.value.minor, param)) else before
      case _ => before
  }

  function KeyOf(calls: seq<Call>, fd: Fd): Option<Key> {
    match FileOf(calls, fd)
    case None => None
    case Some(f) => Some(Key(f.minor, f.channelNum % 0x1_0000_0000))
  }

  /** Call `i` of the run wrote successfully to `key`. */
  predicate WroteTo(calls: seq<Call>, i: nat, key: Key)
    requires i < |calls|
  {
    && calls[i].Write? && calls[i].data.Some?
    && KeyOf(calls[..i], calls[i].fd) == Some(key)
    && OutcomeOf(calls, i) == Done(|calls[i].data.value|, [])
  }

  /** The bytes of the latest successful write to `key`. */
  function LastWritten(calls: seq<Call>, key: Key): Option<seq<Byte>> {
    if calls == [] then None else
      var n := |calls| - 1;
      if WroteTo(calls, n, key) then Some(calls[n].data.value) else LastWritten(calls[..n], key)
  }

  /** Some `ioctl` that returned 0 selected `key`. */
  predicate Selected(calls: seq<Call>, i: nat, key: Key)
    requires i < |calls|
  {
    && calls[i].Ioctl? && OutcomeOf(calls, i) == Done(0, [])
    && KeyOf(calls[..i + 1], calls[i].fd) == Some(key)
  }

  function Exists(calls: seq<Call>, key: Key): bool {
    calls != [] && (Selected(calls, |calls| - 1, key) || Exists(calls[..|calls| - 1], key))
  }

  // ---- The state is what the history says ----

  function ChannelOf(s: State, key: Key): Option<seq<Byte>> {
    var slot := s.slots[key.minor];
    if slot.Present? && key.id in slot.channels then Some(slot.channels[key.id]) else None
  }

  function Default(data: Option<seq<Byte>>): seq<Byte> {
    if data.Some? then data.value else []
  }

  /** A file is open exactly as the history says, on a minor that has a slot. */
  lemma {:induction false} FileIs(calls: seq<Call>, fd: Fd)
    ensures fd in Run(calls).files <==> FileOf(calls, fd).Some?
    ensures fd in Run(calls).files ==>
      Run(calls).files[fd] == FileOf(calls, fd).value && Run(calls).slots[Run(calls).files[fd].minor].Present?
  {
    if calls != [] {
      FileIs(calls[..|calls| - 1], fd);
      FileIs(calls[..|calls| - 1], calls[|calls| - 1].fd);
    }
  }

  lemma LastCall(calls: seq<Call>)
    requires calls != []
    ensures var n := |calls| - 1;
      OutcomeOf(calls, n) == Exec(Run(calls[..n]), calls[n]).outcome && calls[..n + 1] == calls
  {
  }

  lemma SelectedMeans(calls: seq<Call>, key: Key)
    requires calls != []
    ensures var n := |calls| - 1;
      var s, call := Run(calls[..n]), calls[n];
      Selected(calls, n, key) <==> call.Ioctl? && call.fd in s.files && Exec(s, call).outcome == Done(0, [])
                                   && key == Key(s.files[call.fd].minor, call.param % UINT)
  {
    hide FileOf, OpenStep, WriteStep, ReadStep;
    FileIs(calls, calls[|calls| - 1].fd);
    LastCall(calls);
  }

  lemma WroteMeans(calls: seq<Call>, key: Key)
    requires calls != []
    ensures var n := |calls| - 1;
      var s, call := Run(calls[..n]), calls[n];
      WroteTo(calls, n, key) <==> call.Write? && call.data.Some? && call.fd in s.files
                                  && Exec(s, call).outcome == Done(|call.data.value|, [])
                                  && key == Key(s.files[call.fd].minor, s.files[call.fd].channelNum % UINT)
    ensures var n := |calls| - 1;
      WroteTo(calls, n, key) ==>
        ChannelOf(Run(calls[..n]), key).Some? && 1 <= |calls[n].data.value| <= BUFFER_LENGTH
  {
    hide FileOf, OpenStep, IoctlStep, ReadStep;
    FileIs(calls[..|calls| - 1], calls[|calls| - 1].fd);
    LastCall(calls);
  }

  /** A channel exists exactly if some `ioctl` that returned 0 selected it, and then holds the latest
      message written to it. */
  lemma {:induction false} ChannelIs(calls: seq<Call>, key: Key)
    ensures ChannelOf(Run(calls), key) == if Exists(calls, key) then Some(Default(LastWritten(calls, key))) else None
    ensures LastWritten(calls, key).Some? ==>
      Exists(calls, key) && 1 <= |LastWritten(calls, key).value| <= 128
  {
    hide Exec, WroteTo, Selected;
    if calls != [] {
      var n := |calls| - 1;
      ChannelIs(calls[..n], key);
      SelectedMeans(calls, key);
      WroteMeans(calls, key);
      StepChannel(Run(calls[..n]), calls[n], key);
    }
  }

  /** What one call does to one channel. */
  lemma StepChannel(s: State, call: Call, key: Key)
    ensures var after := Exec(s, call);
      ChannelOf(after.state, key) ==
        if call.fd !in s.files || key.minor != s.files[call.fd].minor then ChannelOf(s, key)
        else if call.Ioctl? && after.outcome == Done(0, []) && key.id == call.param % UINT
        then Some(Default(ChannelOf(s, key)))
        else if call.Write? && call.data.Some? && after.outcome == Done(|call.data.value|, [])
                && key.id == s.files[call.fd].channelNum % UINT
        then call.data
        else ChannelOf(s, key)
  {
  }

  // ---- What the calls return ----

  /** What a read returns, from the history: nothing another file or another key did shows, and NULL is
      dereferenced exactly when the channel does not exist. -22 is -EINVAL, -90 -EMSGSIZE, -11 -EWOULDBLOCK,
      -28 -ENOSPC and -14 -EFAULT. */
  function ExpectedRead(calls: seq<Call>, key: Key, room: Option<nat>, length: nat): Outcome {
    if room.None? then Done(-22, [])
    else if length == 0 || length > 128 then Done(-90, [])
    else if !Exists(calls, key) then Oops
    else match LastWritten(calls, key)
      case None => Done(-11, [])
      case Some(data) =>
        if |data| > length then Done(-28, [])
        else if |data| > room.value then Done(-14, data[..room.value])
        else Done(|data|, data)
  }

  function ExpectedWrite(calls: seq<Call>, key: Key, data: Option<seq<Byte>>): Outcome {
    if data.None? || key.id == 0 then Done(-22, [])
    else if |data.value| == 0 || |data.value| > 128 then Done(-90, [])
    else if !Exists(calls, key) then Done(-22, [])
    else Done(|data.value|, [])
  }

  /** In any run `open` and `release` return 0. */
  lemma OpenAndReleaseReturn(calls: seq<Call>, fd: Fd, minor: Minor, garbage: Word)
    ensures Exec(Run(calls), Open(fd, minor, garbage)).outcome
         == if FileOf(calls, fd).None? then Done(0, []) else Rejected
    ensures Exec(Run(calls), Release(fd)).outcome
         == if FileOf(calls, fd).None? then Rejected else Done(0, [])
  {
    hide Run, FileOf, IoctlStep, WriteStep, ReadStep;
    FileIs(calls, fd);
  }

  /** In any run, on any file, a read returns exactly the bytes of the latest successful write to the
      same minor and channel id, through whatever file it came. */
  lemma ReadIsLatestWrite(calls: seq<Call>, fd: Fd, room: Option<nat>, length: nat)
    ensures Exec(Run(calls), Read(fd, room, length)).outcome ==
      match KeyOf(calls, fd) case None => Rejected case Some(key) => ExpectedRead(calls, key, room, length)
  {
    hide Run, FileOf, Exists, LastWritten, OpenStep, IoctlStep, WriteStep;
    FileIs(calls, fd);
    if KeyOf(calls, fd).Some? {
      ChannelIs(calls, KeyOf(calls, fd).value);
    }
  }

  /** A file that is read right after `open`, while its private data happens to hold 7. */
  lemma ReadCanOops()
    ensures Exec(Run([Open(0, 0, 7)]), Read(0, Some(128), 128)).outcome.Oops?
  {
    assert [Open(0, 0, 7)][..0] == [];
  }

  /** The channel number 2^32 can be selected, but not written to. */
  lemma SelectedButMute(data: Byte)
    ensures Exec(Run([Open(0, 0, 0)]), Ioctl(0, 0x4008_F000, 0x1_0000_0000)).outcome == Done(0, [])
    ensures Exec(Run([Open(0, 0, 0), Ioctl(0, 0x4008_F000, 0x1_0000_0000)]), Write(0, Some([data]))).outcome
         == Done(-22, [])
  {
    var calls := [Open(0, 0, 0), Ioctl(0, 0x4008_F000, 0x1_0000_0000)];
    assert [Open(0, 0, 0)][..0] == [];
    assert calls[..1] == [Open(0, 0, 0)];
  }

  lemma WriteSucceedsWhen(calls: seq<Call>, fd: Fd, data: Option<seq<Byte>>)
    ensures Exec(Run(calls), Write(fd, data)).outcome ==
      match KeyOf(calls, fd) case None => Rejected case Some(key) => ExpectedWrite(calls, key, data)
  {
    hide Run, FileOf, Exists, LastWritten, OpenStep, IoctlStep, ReadStep;
    FileIs(calls, fd);
    if KeyOf(calls, fd).Some? {
      ChannelIs(calls, KeyOf(calls, fd).value);
    }
  }

  // ---- Files whose last ioctl returned 0 ----

  /** The last `ioctl` on the file since it was opened returned 0. */
  function LastIoctlOk(calls: seq<Call>, fd: Fd): bool {
    calls != [] &&
    var n := |calls| - 1;
    var call := calls[n];
    if call.Ioctl? && call.fd == fd then OutcomeOf(calls, n) == Done(0, [])
    else if (call.Open? || call.Release?) && call.fd == fd && OutcomeOf(calls, n) == Done(0, []) then false
    else LastIoctlOk(calls[..n], fd)
  }

  lemma {:induction false} SelectedExists(calls: seq<Call>, fd: Fd)
    requires LastIoctlOk(calls, fd)
    ensures KeyOf(calls, fd).Some? && Exists(calls, KeyOf(calls, fd).value)
  {
    hide IoctlStep, WriteStep, ReadStep;
    var n := |calls| - 1;
    LastCall(calls);
    FileIs(calls[..n], calls[n].fd);
    if calls[n].Ioctl? && calls[n].fd == fd {
      AcceptedIoctl(calls);
    } else {
      SelectedExists(calls[..n], fd);
    }
  }

  lemma AcceptedIoctl(calls: seq<Call>)
    requires calls != [] && calls[|calls| - 1].Ioctl? && OutcomeOf(calls, |calls| - 1) == Done(0, [])
    ensures var fd := calls[|calls| - 1].fd;
      KeyOf(calls, fd).Some? && Selected(calls, |calls| - 1, KeyOf(calls, fd).value)
  {
    hide FileOf, OpenStep, WriteStep, ReadStep;
    LastCall(calls);
    FileIs(calls, calls[|calls| - 1].fd);
  }

  /** On such a file neither a read nor a write ever meets a missing channel. */
  lemma SelectedIsSafe(calls: seq<Call>, fd: Fd, room: Option<nat>, length: nat, data: Option<seq<Byte>>)
    requires LastIoctlOk(calls, fd)
    ensures !Exec(Run(calls), Read(fd, room, length)).outcome.Oops?
    ensures !Exec(Run(calls), Write(fd, data)).outcome.Oops?
    ensures KeyOf(calls, fd).Some?
    ensures (data.Some? && Exec(Run(calls), Write(fd, data)).outcome == Done(|data.value|, []))
       <==> data.Some? && 1 <= |data.value| <= 128 && KeyOf(calls, fd).value.id != 0
  {
    hide Run, FileOf, Exists, LastWritten, LastIoctlOk, Exec;
    SelectedExists(calls, fd);
    ReadIsLatestWrite(calls, fd, room, length);
    WriteSucceedsWhen(calls, fd, data);
  }
}
