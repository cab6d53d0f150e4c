/** SIGINT and the service loop: which signals are handled when, and how the loop ends. */
module PccSignals {
  import opened PccClients

  /** What is worth remembering of a run: the handler, with the value of `client_flow` it saw, and commits. */
  datatype Event = Handler(flow: bool) | Commit(client: nat)

  predicate Handled(log: seq<Event>) {
    exists i :: 0 <= i < |log| && log[i].Handler?
  }

  /** The handler only ran outside the service of a client, and no client was committed after it. */
  predicate Orderly(log: seq<Event>) {
    && (forall i :: 0 <= i < |log| && log[i].Handler? ==> !log[i].flow)
    && (forall i, j :: 0 <= i < j < |log| && log[i].Handler? ==> log[j].Handler?)
  }

  function Commits(log: seq<Event>): seq<nat> {
    if log == [] then [] else
      Commits(log[..|log| - 1]) + (match log[|log| - 1] case Handler(_) => [] case Commit(k) => [k])
  }

  predicate Arrived(arrives: nat -> bool, time: nat) {
    exists t :: 0 <= t < time && arrives(t)
  }

  lemma ArrivedNext(arrives: nat -> bool, time: nat)
    ensures Arrived(arrives, time + 1) <==> Arrived(arrives, time) || arrives(time)
  {
  }

  lemma LogGrows(log: seq<Event>, e: Event)
    ensures Commits(log + [e]) == Commits(log) + (match e case Handler(_) => [] case Commit(k) => [k])
    ensures Handled(log + [e]) <==> Handled(log) || e.Handler?
    ensures Orderly(log) && (e.Handler? ==> !e.flow) && (e.Commit? ==> !Handled(log)) ==> Orderly(log + [e])
  {
    assert (log + [e])[..|log|] == log;
    if e.Handler? {
      assert (log + [e])[|log|].Handler?;
    }
    if Handled(log) {
      var i :| 0 <= i < |log| && log[i].Handler?;
      assert (log + [e])[i].Handler?;
    }
  }

  // ---- When the loop ends ----

  datatype Exit = Returned(code: int) | Waiting

  /** How many moments the service of a client takes, from the test after `accept` to the next test of
      the loop. */
  function Moments(c: Client): nat {
    if !c.accepted then 2
    else if c.size.NonFatal? || c.size.Fatal? then 3
    else if c.body.NonFatal? || c.body.Fatal? then 4
    else if c.sent.NonFatal? || c.sent.Fatal? then 5
    else 6
  }

  /** The moment of the loop test before client `k`, if the loop comes that far. */
  function Head(clients: seq<Client>, start: nat, k: nat): nat
    requires k <= |clients|
    decreases k, 0
  {
    if k == 0 then start else Taken(clients, start, k - 1) + Moments(clients[k - 1])
  }

  /** The moment of the test after `accept` for client `k`. */
  function Taken(clients: seq<Client>, start: nat, k: nat): nat
    requires k < |clients|
    decreases k, 1
  {
    Head(clients, start, k) + 2
  }

  /** The loop comes to its test before client `k`: nobody before ends it, and no signal came before they
      were taken. */
  predicate Reached(arrives: nat -> bool, clients: seq<Client>, start: nat, k: nat) {
    && k <= |clients|
    && forall j :: 0 <= j < k ==> !FateOf(clients[j]).Broken? && !Arrived(arrives, Taken(clients, start, j))
  }

  /** How the loop ends: the clients served were all taken before any signal and do not end the loop.
      Then it sees a signal at one of its two tests, or waits for a client, or the next client ends it. */
  predicate EndsAs(arrives: nat -> bool, clients: seq<Client>, start: nat, exit: Exit, served: nat) {
    && Reached(arrives, clients, start, served)
    && if Arrived(arrives, Head(clients, start, served)) then exit == Returned(0)
       else if served == |clients| then exit == Waiting
       else if Arrived(arrives, Taken(clients, start, served)) then exit == Returned(0)
       else FateOf(clients[served]).Broken? && exit == Returned(1)
  }

  /** The loop returns 1 if and only if a client taken before any signal breaks it: a failed `accept`, or a
      fatal error after calls that went through. An error that drops the client never ends the loop. */
  lemma ReturnsOne(arrives: nat -> bool, clients: seq<Client>, start: nat, exit: Exit, served: nat)
    requires EndsAs(arrives, clients, start, exit, served)
    ensures exit == Returned(1) <==>
      && served < |clients| && !Arrived(arrives, Taken(clients, start, served))
      && var c := clients[served];
         !c.accepted || c.size.Fatal?
         || ((c.size.Fine? || c.size.Interrupted?)
             && (c.body.Fatal? || ((c.body.Fine? || c.body.Interrupted?) && c.sent.Fatal?)))
  {
    if served < |clients| {
      FateIs(clients[served]);
      if Arrived(arrives, Head(clients, start, served)) {
        ArrivedBy(arrives, Head(clients, start, served), Taken(clients, start, served));
      }
    }
  }

  lemma ReachedNext(arrives: nat -> bool, clients: seq<Client>, start: nat, k: nat)
    requires Reached(arrives, clients, start, k) && k < |clients|
    ensures Taken(clients, start, k) == Head(clients, start, k) + 2
    ensures Head(clients, start, k + 1) == Taken(clients, start, k) + Moments(clients[k])
    ensures !FateOf(clients[k]).Broken? && !Arrived(arrives, Taken(clients, start, k)) ==>
      Reached(arrives, clients, start, k + 1)
  {
  }

  lemma ArrivedBy(arrives: nat -> bool, a: nat, b: nat)
    requires a <= b && Arrived(arrives, a)
    ensures Arrived(arrives, b)
  {
  }

  lemma {:induction false} HeadsGrow(clients: seq<Client>, start: nat, j: nat, k: nat)
    requires j < k <= |clients|
    ensures Taken(clients, start, j) < Head(clients, start, k)
    decreases k
  {
    if j < k - 1 {
      HeadsGrow(clients, start, j, k - 1);
    }
  }

  /** The signals, the clients and the start determine how the loop ends. */
  lemma EndIsUnique(arrives: nat -> bool, clients: seq<Client>, start: nat, e: Exit, m: nat, f: Exit, n: nat)
    requires EndsAs(arrives, clients, start, e, m) && EndsAs(arrives, clients, start, f, n)
    ensures e == f && m == n
  {
    hide FateOf, Arrived;
    if m < n {
      EarlierEnd(arrives, clients, start, e, m, n);
    } else if n < m {
      EarlierEnd(arrives, clients, start, f, n, m);
    }
  }

  lemma EarlierEnd(arrives: nat -> bool, clients: seq<Client>, start: nat, e: Exit, m: nat, n: nat)
    requires EndsAs(arrives, clients, start, e, m) && m < n <= |clients|
    ensures Arrived(arrives, Taken(clients, start, m)) || FateOf(clients[m]).Broken?
  {
    hide FateOf, Arrived;
    if Arrived(arrives, Head(clients, start, m)) {
      ArrivedBy(arrives, Head(clients, start, m), Taken(clients, start, m));
    }
  }

  /** The first signal comes at moment `t`. */
  predicate FirstAt(arrives: nat -> bool, t: nat) {
    arrives(t) && !Arrived(arrives, t)
  }

  lemma FirstDecides(arrives: nat -> bool, t: nat, n: nat)
    requires FirstAt(arrives, t)
    ensures Arrived(arrives, n) <==> t < n
  {
  }

  /** What the loop does when the first signal comes while client `k` is being served: the client is
      served to its end, and nobody after it. */
  lemma SignalInService(arrives: nat -> bool, clients: seq<Client>, start: nat, t: nat, k: nat)
    requires k < |clients| && FirstAt(arrives, t)
    requires Taken(clients, start, k) <= t < Head(clients, start, k + 1)
    requires forall j :: 0 <= j < k ==> !FateOf(clients[j]).Broken?
    ensures if FateOf(clients[k]).Broken? then EndsAs(arrives, clients, start, Returned(1), k)
            else EndsAs(arrives, clients, start, Returned(0), k + 1)
  {
    hide FateOf, Arrived, Head, FirstAt, Moments;
    FirstDecides(arrives, t, Taken(clients, start, k));
    FirstDecides(arrives, t, Head(clients, start, k));
    FirstDecides(arrives, t, Head(clients, start, k + 1));
    NobodySooner(arrives, clients, start, t, k);
  }

  /** When it comes between the loop test and the test after `accept`, client `k` is not served. */
  lemma SignalInAccept(arrives: nat -> bool, clients: seq<Client>, start: nat, t: nat, k: nat)
    requires k < |clients| && FirstAt(arrives, t)
    requires Head(clients, start, k) <= t < Taken(clients, start, k)
    requires forall j :: 0 <= j < k ==> !FateOf(clients[j]).Broken?
    ensures EndsAs(arrives, clients, start, Returned(0), k)
  {
    hide FateOf, Arrived, FirstAt, Moments;
    FirstDecides(arrives, t, Taken(clients, start, k));
    FirstDecides(arrives, t, Head(clients, start, k));
    NobodySooner(arrives, clients, start, t, k);
  }

  lemma NobodySooner(arrives: nat -> bool, clients: seq<Client>, start: nat, t: nat, k: nat)
    requires k <= |clients| && FirstAt(arrives, t) && Head(clients, start, k) <= t
    ensures forall j :: 0 <= j < k ==> !Arrived(arrives, Taken(clients, start, j))
  {
    hide Arrived, FirstAt, Taken;
    forall j | 0 <= j < k
      ensures !Arrived(arrives, Taken(clients, start, j))
    {
      HeadsGrow(clients, start, j, k);
      FirstDecides(arrives, t, Taken(clients, start, j));
    }
  }

  /** The loop waits in `accept` although a signal came before it called `accept`, if and only if no
      client ends the loop and the first signal comes right after the last test of the loop. */
  lemma MissedExactly(arrives: nat -> bool, clients: seq<Client>, start: nat, exit: Exit, served: nat)
    requires EndsAs(arrives, clients, start, exit, served)
    ensures exit.Waiting? && Arrived(arrives, Head(clients, start, |clients|) + 1)
       <==> (forall j :: 0 <= j < |clients| ==> !FateOf(clients[j]).Broken?)
            && FirstAt(arrives, Head(clients, start, |clients|))
  {
    hide FateOf, Arrived, Moments;
    var last := Head(clients, start, |clients|);
    ArrivedNext(arrives, last);
    if FirstAt(arrives, last) && (forall j :: 0 <= j < |clients| ==> !FateOf(clients[j]).Broken?) {
      NobodySooner(arrives, clients, start, last, |clients|);
      assert EndsAs(arrives, clients, start, Waiting, |clients|);
      EndIsUnique(arrives, clients, start, exit, served, Waiting, |clients|);
    }
  }
}
