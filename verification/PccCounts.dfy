/** What count_chars counts: the printable characters of a C string. */
module PccCounts {
  import opened Basics

  const NUM_OF_CHARACTERS: nat := 95
  const LOWEST_ASCII: int := 32
  const HIGHEST_ASCII: int := 126
  const UINT32: nat := 0x1_0000_0000

  type Uint32 = x: int | 0 <= x < 0x1_0000_0000

  /** Memory from the start of the buffer on; somewhere there is a NUL. */
  type Memory = s: seq<Byte> | 0 in s witness [0]

  function FirstNul(s: seq<Byte>): (n: nat)
    ensures n <= |s|
    ensures n < |s| ==> s[n] == 0
    ensures forall i :: 0 <= i < n ==> s[i] != 0
  {
    if s == [] || s[0] == 0 then 0 else 1 + FirstNul(s[1..])
  }

  /** The bytes before the first NUL, all of them if there is none. */
  function Text(s: seq<Byte>): seq<Byte> {
    s[..FirstNul(s)]
  }

  function Count(s: seq<Byte>, c: int): nat {
    if s == [] then 0 else (if s[|s| - 1] == c then 1 else 0) + Count(s[..|s| - 1], c)
  }

  /** The count of a byte is how often it occurs. */
  lemma {:induction false} CountIsMultiplicity(s: seq<Byte>, c: Byte)
    ensures Count(s, c) == multiset(s)[c]
  {
    if s != [] {
      CountIsMultiplicity(s[..|s| - 1], c);
      assert s == s[..|s| - 1] + [s[|s| - 1]];
    }
  }

  predicate IsPrintable(c: int) {
    LOWEST_ASCII <= c <= HIGHEST_ASCII
  }

  function Printable(s: seq<Byte>): nat {
    if s == [] then 0 else (if IsPrintable(s[|s| - 1]) then 1 else 0) + Printable(s[..|s| - 1])
  }

  /** The sum of the counts of the first `n` printable characters. */
  function SumOfCounts(s: seq<Byte>, n: nat): nat {
    if n == 0 then 0 else SumOfCounts(s, n - 1) + Count(s, 32 + n - 1)
  }

  /** The number sent to a client is the sum of what it adds to the 95 counters. */
  lemma {:induction false} PrintableIsSum(s: seq<Byte>)
    ensures Printable(s) == SumOfCounts(s, 95)
  {
    if s == [] {
      NothingCounted(NUM_OF_CHARACTERS);
    } else {
      PrintableIsSum(s[..|s| - 1]);
      OneMore(s, NUM_OF_CHARACTERS);
    }
  }

  lemma {:induction false} NothingCounted(n: nat)
    ensures SumOfCounts([], n) == 0
  {
    if n > 0 {
      NothingCounted(n - 1);
    }
  }

  lemma {:induction false} OneMore(s: seq<Byte>, n: nat)
    requires s != []
    ensures SumOfCounts(s, n)
         == SumOfCounts(s[..|s| - 1], n) + (if LOWEST_ASCII <= s[|s| - 1] < LOWEST_ASCII + n then 1 else 0)
  {
    if n > 0 {
      OneMore(s, n - 1);
    }
  }

  lemma {:induction false} CountAppend(a: seq<Byte>, b: seq<Byte>, c: int)
    ensures Count(a + b, c) == Count(a, c) + Count(b, c)
  {
    if b == [] {
      assert a + b == a;
    } else {
      CountAppend(a, b[..|b| - 1], c);
      assert (a + b)[..|a + b| - 1] == a + b[..|b| - 1];
    }
  }

  lemma {:induction false} NoneCounted(s: seq<Byte>)
    ensures Printable(s) == 0 <==> forall c :: IsPrintable(c) ==> Count(s, c) == 0
  {
    if s != [] {
      NoneCounted(s[..|s| - 1]);
      assert IsPrintable(s[|s| - 1]) ==> Count(s, s[|s| - 1]) > 0;
      assert forall c :: Count(s[..|s| - 1], c) <= Count(s, c);
    }
  }

  /** Where the string ends: inside the client's bytes, or behind them. */
  lemma {:induction false} TextAppend(sent: seq<Byte>, behind: seq<Byte>)
    ensures Text(sent + behind) == if 0 in sent then Text(sent) else sent + Text(behind)
  {
    if sent == [] {
      assert sent + behind == behind;
    } else {
      assert (sent + behind)[1..] == sent[1..] + behind;
      TextAppend(sent[1..], behind);
      if sent[0] != 0 {
        var n, m := FirstNul(sent), FirstNul(sent + behind);
        assert Text(sent + behind) == [sent[0]] + Text(sent[1..] + behind);
        assert Text(sent) == [sent[0]] + Text(sent[1..]);
      }
    }
  }

  /** The part of the client's bytes that is not counted, and what is counted although not sent. */
  function Missed(sent: seq<Byte>): seq<Byte> {
    sent[FirstNul(sent)..]
  }

  /** The buffer holds the client's bytes and is not terminated. Every printable character is counted as
      often as the client sent it exactly when nothing printable comes after a NUL in its bytes, or, if
      they have no NUL, nothing printable lies in memory behind them before the next NUL. */
  lemma CountsWhatWasSentIff(sent: seq<Byte>, behind: Memory)
    ensures (forall c :: IsPrintable(c) ==> Count(Text(sent + behind), c) == Count(sent, c))
       <==> (if 0 in sent then Printable(Missed(sent)) == 0 else Printable(Text(behind)) == 0)
  {
    TextAppend(sent, behind);
    if 0 in sent {
      assert sent == Text(sent) + Missed(sent);
      forall c
        ensures Count(sent, c) == Count(Text(sent), c) + Count(Missed(sent), c)
      {
        CountAppend(Text(sent), Missed(sent), c);
      }
      NoneCounted(Missed(sent));
    } else {
      forall c
        ensures Count(sent + Text(behind), c) == Count(sent, c) + Count(Text(behind), c)
      {
        CountAppend(sent, Text(behind), c);
      }
      NoneCounted(Text(behind));
    }
  }

  /** A client that sends a NUL and "A": the "A" is not counted. */
  lemma CountsTooLittle(behind: Memory)
    ensures Count([0, 65], 65) == 1 && Count(Text([0, 65] + behind), 65) == 0
  {
    TextAppend([0, 65], behind);
    assert Text([0, 65]) == [];
    CountAppend([0], [65], 65);
    assert [0] + [65] == [0, 65];
  }

  /** A client that sends "A" and a buffer followed by "B" in memory: B is counted too. */
  lemma CountsTooMuch()
    ensures Count(Text([65] + [66, 0]), 66) == 1 && Count([65], 66) == 0
  {
    TextAppend([65], [66, 0]);
    assert FirstNul([66, 0]) == 1;
    assert Text([66, 0]) == [66];
    CountAppend([65], [66], 66);
  }
}
