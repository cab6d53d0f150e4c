/** The message slot device as a map from minor and channel id to the last message, with its file states. */
module MessageSlotSpec {
  import opened Basics
  import opened Words

  const BUFFER_LENGTH: nat := 128
  const MINORS_LIMIT: nat := 256
  const CHANNELS_LIMIT: nat := 0x10_0000
  const MSG_SLOT_CHANNEL: nat := 0x4008_F000

  /** sizeof(int): what `++` adds to an entry of `numOfChannels`, an array of pointers. */
  const STRIDE: nat := 4

  const UINT: nat := 0x1_0000_0000

  const EWOULDBLOCK: int := 11
  const EFAULT: int := 14
  const EINVAL: int := 22
  const ENOSPC: int := 28
  const EMSGSIZE: int := 90

  type Minor = x: int | 0 <= x < 256
  type Fd = nat

  /** The channels of a slot and their last messages, empty before the first write. */
  type Channels = map<nat, seq<Byte>>

  datatype Slot = Absent | Present(channels: Channels)
  type Slots = s: seq<Slot> | |s| == 256 witness seq(256, _ => Absent)

  /** The private data of an open file: its minor and what the last accepted `ioctl` selected. */
  datatype File = File(minor: Minor, channelNum: Word)

  datatype State = State(slots: Slots, files: map<Fd, File>)

  /** What user programs ask of the device. `garbage` is what the private data happens to hold when it
      is allocated. `Write` gives the bytes that `get_user` delivers, `Read` the number of bytes that can
      be put at the buffer before `put_user` faults; None stands for a NULL pointer. */
  datatype Call =
    | Open(fd: Fd, minor: Minor, garbage: Word)
    | Ioctl(fd: Fd, command: nat, param: Word)
    | Write(fd: Fd, data: Option<seq<Byte>>)
    | Read(fd: Fd, room: Option<nat>, length: nat)
    | Release(fd: Fd)

  /** A return value and the bytes put into the buffer, a NULL dereference in the kernel, or a call the
      kernel does not pass on because the file is not open (or, for `Open`, is). */
  datatype Outcome = Done(code: int, data: seq<Byte>) | Oops | Rejected

  function Fails(error: int): Outcome {
    Done(-error, [])
  }

  /** The pointer that counts the channels of a slot: advanced twice for the first one. */
  function Counter(channels: nat): nat {
    if channels == 0 then 0 else STRIDE * (channels + 1)
  }

  datatype Step = Step(state: State, outcome: Outcome)

  /** `device_open` */
  function OpenStep(s: State, fd: Fd, minor: Minor, garbage: Word): Step {
    Step(State(if s.slots[minor].Absent? then s.slots[minor := Present(map[])] else s.slots,
               s.files[fd := File(minor, garbage)]),
         Done(0, []))
  }

  datatype Selection = Selection(slots: Slots, code: int)

  /** The channel `id` of a minor, created if need be: the second half of `ioctl`. */
  function Select(slots: Slots, minor: Minor, id: nat): Selection {
    match slots[minor]
    case Absent => Selection(slots, -EINVAL)
    case Present(channels) =>
      if id in channels then Selection(slots, 0)
      else if channels != map[] && Counter(|channels|) >= CHANNELS_LIMIT then Selection(slots, -1)
      else Selection(slots[minor := Present(channels[id := []])], 0)
  }

  /** `ioctl` */
  function IoctlStep(s: State, fd: Fd, command: nat, param: Word): Step
    requires fd in s.files
  {
    if param == 0 || command != MSG_SLOT_CHANNEL then Step(s, Fails(EINVAL)) else
      var minor := s.files[fd].minor;
      var selection := Select(s.slots, minor, param % UINT);
      Step(State(selection.slots, s.files[fd := File(minor, param)]), Done(selection.code, []))
  }

  /** `device_write` */
  function WriteStep(s: State, fd: Fd, data: Option<seq<Byte>>): Step
    requires fd in s.files
  {
    var f := s.files[fd];
    var id := f.channelNum % UINT;
    if data.None? || id == 0 then Step(s, Fails(EINVAL))
    else if |data.value| == 0 || |data.value| > BUFFER_LENGTH then Step(s, Fails(EMSGSIZE))
    else if s.slots[f.minor].Absent? then Step(s, Oops)
    else if id !in s.slots[f.minor].channels then Step(s, Fails(EINVAL))
    else Step(State(s.slots[f.minor := Present(s.slots[f.minor].channels[id := data.value])], s.files),
              Done(|data.value|, []))
  }

  /** `device_read` */
  function ReadStep(s: State, fd: Fd, room: Option<nat>, length: nat): Step
    requires fd in s.files
  {
    var f := s.files[fd];
    var id := f.channelNum % UINT;
    if room.None? then Step(s, Fails(EINVAL))
    else if length == 0 || length > BUFFER_LENGTH then Step(s, Fails(EMSGSIZE))
    else if s.slots[f.minor].Absent? || id !in s.slots[f.minor].channels then Step(s, Oops)
    else
      var message := s.slots[f.minor].channels[id];
      if message == [] then Step(s, Fails(EWOULDBLOCK))
      else if |message| > length then Step(s, Fails(ENOSPC))
      else if |message| > room.value then Step(s, Done(-EFAULT, message[..room.value]))
      else Step(s, Done(|message|, message))
  }

  function Exec(s: State, call: Call): Step {
    match call
    case Open(fd, minor, garbage) => if fd in s.files then Step(s, Rejected) else OpenStep(s, fd, minor, garbage)
    case Ioctl(fd, command, param) => if fd in s.files then IoctlStep(s, fd, command, param) else Step(s, Rejected)
    case Write(fd, data) => if fd in s.files then WriteStep(s, fd, data) else Step(s, Rejected)
    case Read(fd, room, length) => if fd in s.files then ReadStep(s, fd, room, length) else Step(s, Rejected)
    case Release(fd) => if fd in s.files then Step(State(s.slots, s.files - {fd}), Done(0, [])) else Step(s, Rejected)
  }

  /** The state after the module is loaded. */
  function Loaded(): State {
    State(seq(256, _ => Absent), map[])
  }

  function Run(calls: seq<Call>): State {
    if calls == [] then Loaded() else Exec(Run(calls[..|calls| - 1]), calls[|calls| - 1]).state
  }

  /** The outcome of call number `i` of a run. */
  function OutcomeOf(calls: seq<Call>, i: nat): Outcome
    requires i < |calls|
  {
    Exec(Run(calls[..i]), calls[i]).outcome
  }

  // ---- Drivers ----

  /** How many minors have a slot. */
  function Drivers(slots: seq<Slot>): (n: nat)
    ensures n <= |slots|
  {
    if slots == [] then 0 else (if slots[0].Absent? then 0 else 1) + Drivers(slots[1..])
  }

  /** A slot that is created is counted; a minor without a slot leaves room for it. */
  lemma {:induction false} DriversUpdate(slots: seq<Slot>, m: nat, slot: Slot)
    requires m < |slots| && slot.Present?
    ensures Drivers(slots[m := slot]) == Drivers(slots) + (if slots[m].Absent? then 1 else 0)
    ensures slots[m].Absent? ==> Drivers(slots) < |slots|
  {
    if m == 0 {
      assert slots[m := slot][1..] == slots[1..];
    } else {
      assert slots[m := slot][1..] == slots[1..][m - 1 := slot];
      DriversUpdate(slots[1..], m - 1, slot);
    }
  }
}
