/** The clients of the printable character server: what becomes of each, and what all of them add up to. */
module PccClients {
  import opened Basics
  import opened PccCounts

  /** How a call on a socket ends: done, or with an error that drops the client, is ignored, or ends
      the loop. */
  datatype Io = Fine | NonFatal | Interrupted | Fatal

  /** What happens to one client if the server takes it; `memory` is the buffer and what lies behind it. */
  datatype Client = Client(accepted: bool, size: Io, body: Io, memory: Memory, sent: Io)

  datatype Fate = Committed | Dropped | Broken

  /** Whether the answer is sent at all. */
  predicate Answered(c: Client) {
    c.accepted && !c.size.NonFatal? && !c.size.Fatal? && !c.body.NonFatal? && !c.body.Fatal?
  }

  /** The fate of a client, whatever signals arrive. */
  function FateOf(c: Client): Fate {
    if !c.accepted || c.size.Fatal? then Broken
    else if c.size.NonFatal? then Dropped
    else if c.body.Fatal? then Broken
    else if c.body.NonFatal? then Dropped
    else match c.sent
      case NonFatal => Dropped
      case Fatal => Broken
      case _ => Committed
  }

  /** Committed are exactly the clients with whom every call went through or was only interrupted; the loop
      breaks at a failed `accept`, and where the first call that did not go through is a fatal one. */
  lemma FateIs(c: Client)
    ensures FateOf(c).Committed? <==> c.accepted && (c.size.Fine? || c.size.Interrupted?)
                                      && (c.body.Fine? || c.body.Interrupted?) && (c.sent.Fine? || c.sent.Interrupted?)
    ensures FateOf(c).Broken? <==> !c.accepted || c.size.Fatal?
                                   || ((c.size.Fine? || c.size.Interrupted?) && c.body.Fatal?)
                                   || ((c.size.Fine? || c.size.Interrupted?) && (c.body.Fine? || c.body.Interrupted?)
                                       && c.sent.Fatal?)
    ensures Answered(c) <==> c.accepted && (c.size.Fine? || c.size.Interrupted?)
                             && (c.body.Fine? || c.body.Interrupted?)
  {
  }

  /** All texts of the committed clients, one after the other. */
  function Received(clients: seq<Client>): seq<Byte> {
    if clients == [] then [] else
      Received(clients[..|clients| - 1])
      + (if FateOf(clients[|clients| - 1]).Committed? then Text(clients[|clients| - 1].memory) else [])
  }

  function Reply(c: Client): Uint32 {
    Printable(Text(c.memory)) % UINT32
  }

  function Replies(clients: seq<Client>): seq<Uint32> {
    if clients == [] then [] else
      Replies(clients[..|clients| - 1])
      + (if Answered(clients[|clients| - 1]) then [Reply(clients[|clients| - 1])] else [])
  }

  lemma {:induction false} PrintableAppend(a: seq<Byte>, b: seq<Byte>)
    ensures Printable(a + b) == Printable(a) + Printable(b)
  {
    if b == [] {
      assert a + b == a;
    } else {
      PrintableAppend(a, b[..|b| - 1]);
      assert (a + b)[..|a + b| - 1] == a + b[..|b| - 1];
    }
  }

  /** Which clients are committed. */
  function CommittedOf(clients: seq<Client>): seq<nat> {
    if clients == [] then [] else
      CommittedOf(clients[..|clients| - 1])
      + (if FateOf(clients[|clients| - 1]).Committed? then [|clients| - 1] else [])
  }

  /** A table that counts `text`, each counter modulo 2^32. */
  ghost predicate Counts(table: seq<Uint32>, text: seq<Byte>) {
    && |table| == NUM_OF_CHARACTERS
    && forall i :: 0 <= i < NUM_OF_CHARACTERS ==> table[i] == Count(text, LOWEST_ASCII + i) % UINT32
  }

  /** What a table that counts `text` holds. */
  lemma CountsMean(table: seq<Uint32>, text: seq<Byte>)
    requires Counts(table, text)
    ensures |table| == 95 && forall i :: 0 <= i < 95 ==> table[i] == multiset(text)[32 + i] % 0x1_0000_0000
  {
    forall i | 0 <= i < 95
      ensures table[i] == multiset(text)[32 + i] % 0x1_0000_0000
    {
      CountIsMultiplicity(text, 32 + i);
    }
  }

  lemma LastClient(clients: seq<Client>, c: Client)
    ensures Received(clients + [c]) == Received(clients) + if FateOf(c).Committed? then Text(c.memory) else []
    ensures CommittedReplies(clients + [c])
         == CommittedReplies(clients) + if FateOf(c).Committed? then [Reply(c)] else []
    ensures CommittedOf(clients + [c]) == CommittedOf(clients) + if FateOf(c).Committed? then [|clients|] else []
  {
    hide FateOf, Text, Reply;
    assert (clients + [c])[..|clients|] == clients;
  }

  /** One client more: it adds its text and the number it was told if and only if every call went through or
      was only interrupted. */
  lemma CommittedFrom(clients: seq<Client>, c: Client)
    ensures var through := c.accepted && (c.size.Fine? || c.size.Interrupted?)
        && (c.body.Fine? || c.body.Interrupted?) && (c.sent.Fine? || c.sent.Interrupted?);
      && Received(clients + [c]) == Received(clients) + (if through then Text(c.memory) else [])
      && CommittedReplies(clients + [c]) == CommittedReplies(clients)
           + (if through then [Printable(Text(c.memory)) % 0x1_0000_0000] else [])
      && CommittedOf(clients + [c]) == CommittedOf(clients) + (if through then [|clients|] else [])
  {
    hide FateOf, Text, Received, CommittedReplies, CommittedOf, Printable;
    FateIs(c);
    LastClient(clients, c);
  }

  // ---- The totals against the replies ----

  /** The numbers sent to the clients that were committed then. */
  function CommittedReplies(clients: seq<Client>): seq<Uint32> {
    if clients == [] then [] else
      CommittedReplies(clients[..|clients| - 1])
      + (if FateOf(clients[|clients| - 1]).Committed? then [Reply(clients[|clients| - 1])] else [])
  }

  function Sum(numbers: seq<Uint32>): nat {
    if numbers == [] then 0 else Sum(numbers[..|numbers| - 1]) + numbers[|numbers| - 1]
  }

  /** The 95 totals and the numbers that the committed clients were told have the same sum modulo 2^32. */
  lemma TotalsAreReplies(table: seq<Uint32>, clients: seq<Client>)
    requires Counts(table, Received(clients))
    ensures Sum(table) % UINT32 == Sum(CommittedReplies(clients)) % UINT32
  {
    hide Counts, Sum, Received, Printable;
    CountsSize(table, Received(clients));
    TableSum(table, Received(clients), NUM_OF_CHARACTERS);
    PrintableIsSum(Received(clients));
    RepliesSum(clients);
    assert table[..NUM_OF_CHARACTERS] == table;
  }

  lemma CountsSize(table: seq<Uint32>, text: seq<Byte>)
    requires Counts(table, text)
    ensures |table| == NUM_OF_CHARACTERS
  {
  }

  lemma {:induction false} TableSum(table: seq<Uint32>, text: seq<Byte>, n: nat)
    requires Counts(table, text) && n <= |table|
    ensures Sum(table[..n]) % UINT32 == SumOfCounts(text, n) % UINT32
  {
    if n > 0 {
      TableSum(table, text, n - 1);
      assert table[..n][..n - 1] == table[..n - 1];
      AddBothMod(Sum(table[..n - 1]), SumOfCounts(text, n - 1), table[n - 1], Count(text, LOWEST_ASCII + n - 1));
    }
  }

  lemma NoClients()
    ensures Received([]) == [] && CommittedReplies([]) == [] && CommittedOf([]) == []
    ensures Sum([]) == 0 && Printable([]) == 0
  {
  }

  lemma SumLast(numbers: seq<Uint32>, n: Uint32)
    ensures Sum(numbers + [n]) == Sum(numbers) + n
  {
    assert (numbers + [n])[..|numbers|] == numbers;
  }

  lemma {:induction false} RepliesSum(clients: seq<Client>)
    ensures Sum(CommittedReplies(clients)) % UINT32 == Printable(Received(clients)) % UINT32
  {
    hide FateOf, Received, CommittedReplies, Sum, Printable, Text;
    if clients == [] {
      NoClients();
    } else {
      var before, c := clients[..|clients| - 1], clients[|clients| - 1];
      assert clients == before + [c];
      RepliesSum(before);
      LastClient(before, c);
      if FateOf(c).Committed? {
        SumLast(CommittedReplies(before), Reply(c));
        PrintableAppend(Received(before), Text(c.memory));
        AddBothMod(Sum(CommittedReplies(before)), Printable(Received(before)), Reply(c), Printable(Text(c.memory)));
      } else {
        assert CommittedReplies(before) + [] == CommittedReplies(before);
        assert Received(before) + [] == Received(before);
      }
    }
  }

  lemma AddBothMod(a: nat, b: nat, x: nat, y: nat)
    requires a % UINT32 == b % UINT32 && x % UINT32 == y % UINT32
    ensures (a + x) % UINT32 == (b + y) % UINT32
  {
    AddMod(a, x);
    AddMod(b, y);
    AddMod(x, a % UINT32);
    AddMod(y, b % UINT32);
  }

  // ---- One more client ----

  lemma CountsAdd(total: seq<Uint32>, temp: seq<Uint32>, text: seq<Byte>, more: seq<Byte>)
    requires Counts(total, text) && |temp| == NUM_OF_CHARACTERS
    requires forall i :: 0 <= i < NUM_OF_CHARACTERS ==> temp[i] == (total[i] + Count(more, LOWEST_ASCII + i)) % UINT32
    ensures Counts(temp, text + more)
  {
    forall i | 0 <= i < NUM_OF_CHARACTERS
      ensures temp[i] == Count(text + more, LOWEST_ASCII + i) % UINT32
    {
      CountAppend(text, more, LOWEST_ASCII + i);
      AddMod(Count(text, LOWEST_ASCII + i), Count(more, LOWEST_ASCII + i));
    }
  }

  lemma AddMod(a: nat, b: nat)
    ensures (a % UINT32 + b) % UINT32 == (a + b) % UINT32
  {
  }

  lemma OneMoreClient(clients: seq<Client>, k: nat)
    requires k < |clients|
    ensures Received(clients[..k + 1])
         == Received(clients[..k]) + if FateOf(clients[k]).Committed? then Text(clients[k].memory) else []
    ensures Replies(clients[..k + 1])
         == Replies(clients[..k]) + if Answered(clients[k]) then [Reply(clients[k])] else []
    ensures CommittedOf(clients[..k + 1])
         == CommittedOf(clients[..k]) + if FateOf(clients[k]).Committed? then [k] else []
  {
    assert clients[..k + 1][..k] == clients[..k] && clients[..k + 1][k] == clients[k];
  }
}
