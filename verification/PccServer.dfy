/** The printable character server: two counter tables, and a service loop under signals at any point. */
module PccServer {
  import opened Basics
  import opened PccCounts
  import opened PccClients
  import opened PccSignals

  class Server {
    const arrives: nat -> bool           // at which moments the signal is sent
    const pccTotal: array<Uint32>
    const pccTotalTemp: array<Uint32>
    var sigint: bool
    var clientFlow: bool
    var masked: bool                     // SIGINT is blocked, and may be pending
    var pending: bool
    var time: nat
    ghost var log: seq<Event>
    ghost var replies: seq<Uint32>

    ghost predicate Tables()
      reads this
    {
      pccTotal.Length == pccTotalTemp.Length == NUM_OF_CHARACTERS && pccTotal != pccTotalTemp
    }

    /** Between any two statements: no signal is lost, and none is handled while a client is served. */
    ghost predicate Signals()
      reads this`sigint, this`clientFlow, this`masked, this`pending, this`time, this`log
    {
      && (clientFlow ==> masked) && (pending ==> masked)
      && (sigint <==> Handled(log)) && Orderly(log)
      && (Arrived(arrives, time) <==> sigint || pending)
    }

    constructor (signals: nat -> bool)
      ensures Tables() && Signals() && fresh(pccTotal) && fresh(pccTotalTemp)
      ensures arrives == signals && time == 0 && !masked && !clientFlow && !sigint && log == [] && replies == []
      ensures Counts(pccTotal[..], []) && Counts(pccTotalTemp[..], [])
    {
      arrives := signals;
      pccTotal := new Uint32[NUM_OF_CHARACTERS](_ => 0);
      pccTotalTemp := new Uint32[NUM_OF_CHARACTERS](_ => 0);
      sigint, clientFlow, masked, pending, time := false, false, false, false, 0;
      log, replies := [], [];
    }

    /** `sigint_handler` */
    method SigintHandler()
      modifies this`sigint, this`log
      ensures sigint == (old(sigint) || !clientFlow) && log == old(log) + [Handler(clientFlow)]
    {
      log := log + [Handler(clientFlow)];
      if !clientFlow {
        sigint := true;
      }
    }

    /** One moment passes; a signal that is not blocked runs the handler. */
    method Tick()
      requires Signals()
      modifies this`sigint, this`pending, this`time, this`log
      ensures Signals() && Commits(log) == old(Commits(log)) && time == old(time) + 1
      ensures masked ==> sigint == old(sigint) && log == old(log)
    {
      hide Orderly, Handled, Commits, Arrived;
      LogGrows(log, Handler(clientFlow));
      ArrivedNext(arrives, time);
      if arrives(time) {
        if masked {
          pending := true;
        } else {
          SigintHandler();
        }
      }
      time := time + 1;
    }

    /** `sigprocmask(SIG_BLOCK, ...)` */
    method Block()
      requires Signals()
      modifies this`masked
      ensures Signals() && masked
    {
      masked := true;
    }

    /** `sigprocmask(SIG_UNBLOCK, ...)`: a pending signal is delivered */
    method Unblock()
      requires Signals() && !clientFlow
      modifies this`masked, this`pending, this`sigint, this`log
      ensures Signals() && !masked && !pending && Commits(log) == old(Commits(log))
    {
      hide Orderly, Handled, Commits, Arrived;
      LogGrows(log, Handler(clientFlow));
      masked := false;
      if pending {
        pending := false;
        SigintHandler();
      }
    }

    /** `count_chars`: the text up to the NUL is added to the temporary table. */
    method CountChars(message: Memory) returns (res: Uint32)
      requires Tables()
      modifies pccTotalTemp
      ensures res == Printable(Text(message)) % 0x1_0000_0000
      ensures forall i :: 0 <= i < 95 ==>
        pccTotalTemp[i] == (old(pccTotalTemp[i]) + Count(Text(message), 32 + i)) % 0x1_0000_0000
    {
      hide Count, Printable, Text;
      res := 0;
      ghost var text := Text(message);
      TextIs(message);
      NothingYet();
      var dbzy := 0;
      while dbzy < FirstNul(message)
        invariant 0 <= dbzy <= FirstNul(message) == |text|
        invariant res == Printable(text[..dbzy]) % UINT32
        invariant forall i :: 0 <= i < NUM_OF_CHARACTERS ==>
          pccTotalTemp[i] == (old(pccTotalTemp[i]) + Count(text[..dbzy], LOWEST_ASCII + i)) % UINT32
      {
        var byteValue := Signed(message[dbzy]);
        CountsNext(text, dbzy);
        if byteValue >= LOWEST_ASCII && byteValue <= HIGHEST_ASCII {
          var i := byteValue - LOWEST_ASCII;
          AddOne(old(pccTotalTemp[i]) + Count(text[..dbzy], text[dbzy]));
          pccTotalTemp[i] := (pccTotalTemp[i] + 1) % UINT32;
          res := (res + 1) % UINT32;
        }
        dbzy := dbzy + 1;
      }
      assert text[..dbzy] == text;
    }

    /** `duplicate_pcc_total` */
    method DuplicatePccTotal(mode: int)
      requires Tables() && (mode == 0 || mode == 1)
      modifies pccTotal, pccTotalTemp
      ensures pccTotal[..] == pccTotalTemp[..] == if mode == 0 then old(pccTotal[..]) else old(pccTotalTemp[..])
    {
      var dbzy := 0;
      while dbzy < NUM_OF_CHARACTERS
        invariant 0 <= dbzy <= NUM_OF_CHARACTERS
        invariant forall i :: 0 <= i < dbzy ==>
          pccTotal[i] == pccTotalTemp[i] == if mode == 0 then old(pccTotal[i]) else old(pccTotalTemp[i])
        invariant forall i :: dbzy <= i < NUM_OF_CHARACTERS ==>
          pccTotal[i] == old(pccTotal[i]) && pccTotalTemp[i] == old(pccTotalTemp[i])
      {
        if mode == 0 {
          pccTotalTemp[dbzy] := pccTotal[dbzy];
        } else if mode == 1 {
          pccTotal[dbzy] := pccTotalTemp[dbzy];
        }
        dbzy := dbzy + 1;
      }
    }

    /** `client_flow = 0` and the unblocking of the signal, at the end of every path through the loop. */
    method EndService()
      requires Signals() && masked
      modifies this`clientFlow, this`masked, this`pending, this`sigint, this`time, this`log
      ensures Signals() && !masked && !pending && !clientFlow && Commits(log) == old(Commits(log))
      ensures time == old(time) + 1
    {
      hide Orderly, Handled, Commits, Arrived;
      clientFlow := false;
      Tick();
      Unblock();
    }

    /** The second half of the service of a client, from `count_chars` on. */
    method Answer(client: Client, ghost k: nat, ghost text: seq<Byte>) returns (fate: Fate)
      requires Tables() && Signals() && masked && !sigint && Answered(client)
      requires Counts(pccTotal[..], text) && pccTotalTemp[..] == pccTotal[..]
      modifies this, pccTotal, pccTotalTemp
      ensures Signals() && !masked && !pending && !clientFlow
      ensures fate == FateOf(client)
      ensures Counts(pccTotal[..], text + if fate.Committed? then Text(client.memory) else [])
      ensures !fate.Broken? ==> pccTotalTemp[..] == pccTotal[..]
      ensures Commits(log) == old(Commits(log)) + if fate.Committed? then [k] else []
      ensures replies == old(replies) + [Reply(client)]
      ensures time == old(time) + Moments(client) - 3
      ensures client.sent.NonFatal? || client.sent.Fatal? ==> pccTotal[..] == old(pccTotal[..])
      ensures client.sent.Fine? || client.sent.Interrupted? ==> forall i :: 0 <= i < 95 ==>
        pccTotal[i] == (old(pccTotal[i]) + Count(Text(client.memory), 32 + i)) % 0x1_0000_0000
    {
      hide Orderly, Handled, Commits, Arrived, Counts, Text, Printable;
      assert text + [] == text;
      var charsCount := CountChars(client.memory);
      Tick();
      replies := replies + [charsCount];
      if client.sent.NonFatal? {
        DuplicatePccTotal(0);
        EndService();
        return Dropped;
      } else if client.sent.Fatal? {
        EndService();
        return Broken;
      }
      Tick();
      CountsAdd(old(pccTotal[..]), pccTotalTemp[..], text, Text(client.memory));
      DuplicatePccTotal(1);
      LogGrows(log, Commit(k));
      log := log + [Commit(k)];
      EndService();
      return Committed;
    }

    /** The service of one client: the part of the loop of `message_loop` in which `client_flow` is 1. */
    method Serve(client: Client, ghost k: nat, ghost text: seq<Byte>) returns (fate: Fate)
      requires Tables() && Signals() && masked && !sigint && !clientFlow
      requires Counts(pccTotal[..], text) && pccTotalTemp[..] == pccTotal[..]
      modifies this, pccTotal, pccTotalTemp
      ensures Signals() && !masked && !pending && !clientFlow
      ensures fate == FateOf(client)
      ensures Counts(pccTotal[..], text + if fate.Committed? then Text(client.memory) else [])
      ensures !fate.Broken? ==> pccTotalTemp[..] == pccTotal[..]
      ensures Commits(log) == old(Commits(log)) + if fate.Committed? then [k] else []
      ensures replies == old(replies) + if Answered(client) then [Reply(client)] else []
      ensures time == old(time) + Moments(client)
      ensures var through := client.accepted && (client.size.Fine? || client.size.Interrupted?)
          && (client.body.Fine? || client.body.Interrupted?) && (client.sent.Fine? || client.sent.Interrupted?);
        && Commits(log) == old(Commits(log)) + (if through then [k] else [])
        && (!through ==> pccTotal[..] == old(pccTotal[..]))
        && (through ==> forall i :: 0 <= i < 95 ==>
              pccTotal[i] == (old(pccTotal[i]) + Count(Text(client.memory), 32 + i)) % 0x1_0000_0000)
      ensures fate.Broken? <==>
        (!client.accepted || client.size.Fatal?
         || ((client.size.Fine? || client.size.Interrupted?)
             && (client.body.Fatal? || ((client.body.Fine? || client.body.Interrupted?) && client.sent.Fatal?))))
    {
      hide Orderly, Handled, Commits, Arrived, Counts, Text;
      assert text + [] == text;
      clientFlow := true;
      Tick();
      if !client.accepted {
        EndService();
        return Broken;
      }
      Tick();
      if client.size.NonFatal? {
        EndService();
        return Dropped;
      } else if client.size.Fatal? {
        EndService();
        return Broken;
      }
      Tick();
      if client.body.NonFatal? {
        EndService();
        return Dropped;
      } else if client.body.Fatal? {
        EndService();
        return Broken;
      }
      fate := Answer(client, k, text);
    }

    /** `message_loop` on the clients in the order in which they connect; an `accept` that fails is one of
        them. Signals may come at any moment. When the clients are used up the loop waits in `accept`. */
    method MessageLoop(clients: seq<Client>) returns (exit: Exit, served: nat)
      requires Tables() && Signals() && !masked && !clientFlow && Commits(log) == [] && replies == []
      requires Counts(pccTotal[..], []) && pccTotalTemp[..] == pccTotal[..]
      modifies this, pccTotal, pccTotalTemp
      ensures EndsAs(arrives, clients, old(time), exit, served)
      ensures Counts(pccTotal[..], Received(clients[..served]))
      ensures pccTotal.Length == 95
      ensures forall i :: 0 <= i < 95 ==> pccTotal[i] == multiset(Received(clients[..served]))[32 + i] % 0x1_0000_0000
      ensures Sum(pccTotal[..]) % UINT32 == Sum(CommittedReplies(clients[..served])) % UINT32
      ensures Commits(log) == CommittedOf(clients[..served]) && Orderly(log)
      ensures replies == Replies(if exit == Returned(1) then clients[..served + 1] else clients[..served])
      ensures exit.Waiting? ==> time == Head(clients, old(time), served) + 1 && (sigint <==> arrives(time - 1))
    {
      hide Orderly, Handled, Commits, Arrived, Counts, FateOf, Answered, Moments, Sum;
      hide Head, Taken, Reached, Received, Replies, CommittedOf, CommittedReplies;
      served := 0;
      NobodyYet(arrives, clients, time);
      while !sigint
        invariant Signals() && !masked && !clientFlow && !pending
        invariant served <= |clients| && Counts(pccTotal[..], Received(clients[..served]))
        invariant pccTotalTemp[..] == pccTotal[..]
        invariant Reached(arrives, clients, old(time), served) && time == Head(clients, old(time), served)
        invariant Commits(log) == CommittedOf(clients[..served]) && replies == Replies(clients[..served])
        decreases |clients| - served
      {
        ArrivedNext(arrives, time);
        Tick();
        clientFlow := false;
        if served == |clients| {
          TotalsAreReplies(pccTotal[..], clients[..served]);
          CountsMean(pccTotal[..], Received(clients[..served]));
          return Waiting, served;
        }
        ReachedNext(arrives, clients, old(time), served);
        Tick();
        Block();
        if sigint {
          break;
        }
        OneMoreClient(clients, served);
        var fate := Serve(clients[served], served, Received(clients[..served]));
        if fate.Broken? {
          assert Received(clients[..served]) + [] == Received(clients[..served]);
          TotalsAreReplies(pccTotal[..], clients[..served]);
          CountsMean(pccTotal[..], Received(clients[..served]));
          return Returned(1), served;
        }
        served := served + 1;
      }
      TotalsAreReplies(pccTotal[..], clients[..served]);
      CountsMean(pccTotal[..], Received(clients[..served]));
      return Returned(0), served;
    }
  }

  lemma NobodyYet(arrives: nat -> bool, clients: seq<Client>, start: nat)
    ensures Reached(arrives, clients, start, 0) && Head(clients, start, 0) == start
    ensures Received(clients[..0]) == [] && Replies(clients[..0]) == [] && CommittedOf(clients[..0]) == []
  {
  }

  /** A signal right after the first test of the loop, and no clients: the server waits, told to stop. */
  lemma SignalIsMissed()
    ensures var arrives := (t: nat) => t == 0;
      EndsAs(arrives, [], 0, Waiting, 0) && FirstAt(arrives, Head([], 0, 0)) && Arrived(arrives, Head([], 0, 0) + 1)
  {
    var arrives := (t: nat) => t == 0;
    assert arrives(0);
  }

  /** The server in that case. */
  method MissedSignal() returns (server: Server, exit: Exit)
    ensures EndsAs(server.arrives, [], 0, exit, 0) && exit.Waiting? && server.sigint
    ensures server.time == 1 && Arrived(server.arrives, 1) && !Arrived(server.arrives, 0)
  {
    server := new Server(t => t == 0);
    var served;
    exit, served := server.MessageLoop([]);
    assert !Arrived(server.arrives, 0);
  }

  lemma TextIs(message: Memory)
    ensures |Text(message)| == FirstNul(message)
    ensures forall k :: 0 <= k < |Text(message)| ==> Text(message)[k] == message[k]
  {
  }

  lemma AddOne(n: nat)
    ensures (n % UINT32 + 1) % UINT32 == (n + 1) % UINT32
  {
  }

  lemma NothingYet()
    ensures Printable([]) == 0 && forall c :: Count([], c) == 0
  {
  }

  /** One more byte, as the counters see it. */
  lemma CountsNext(text: seq<Byte>, k: nat)
    requires k < |text|
    ensures Printable(text[..k + 1]) % UINT32
         == if IsPrintable(text[k]) then (Printable(text[..k]) % UINT32 + 1) % UINT32 else Printable(text[..k]) % UINT32
    ensures forall c :: Count(text[..k + 1], c) == Count(text[..k], c) + if c == text[k] then 1 else 0
  {
    assert text[..k + 1][..k] == text[..k] && text[..k + 1][k] == text[k];
  }

  /** A char of the message as an int: chars are signed. */
  function Signed(b: Byte): int {
    if b >= 128 then b - 256 else b
  }
}
