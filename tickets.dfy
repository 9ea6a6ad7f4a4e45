/**
 * What identifies a ticket: the name its metadata carries
 * ("Token Lottery Ticket #" followed by the decimal counter), the seed of
 * its mint account (the counter's little-endian bytes), and the NUL
 * stripping that the prize claim applies to the name read back from the
 * metadata account, whose name field is padded with NUL characters.
 */
module Tickets {
  import opened Bytes
  import opened Decimal

  /** The program's `NAME` constant, the prefix of every ticket name. */
  const NAME: string := "Token Lottery Ticket #"

  const NUL: char := '\0'

  /** The ticket issued for counter value `id`. */
  datatype Ticket = Ticket(id: u64, name: string, mintSeed: seq<byte>, owner: Pubkey)

  /** `NAME.to_owned() + id.to_string()` */
  function TicketName(id: nat): (r: string)
    ensures |r| > |NAME| && r[..|NAME|] == NAME
    ensures AllDigits(r[|NAME|..]) && DecimalValue(r[|NAME|..]) == id
  {
    DecimalRoundTrip(id);
    assert (NAME + NatToDecimal(id))[|NAME|..] == NatToDecimal(id);
    NAME + NatToDecimal(id)
  }

  /** The ticket that a purchase with counter value `id` mints to `owner`. */
  function TicketFor(id: u64, owner: Pubkey): (t: Ticket)
    ensures t.id == id && t.owner == owner
    ensures |t.name| > |NAME| && t.name[..|NAME|] == NAME
    ensures AllDigits(t.name[|NAME|..]) && DecimalValue(t.name[|NAME|..]) == id
    ensures |t.mintSeed| == 8 && FromLeBytes(t.mintSeed) == id
  {
    Ticket(id, TicketName(id), U64ToLeBytes(id), owner)
  }

  /** Ticket names identify tickets: equal names mean equal counters. */
  lemma TicketNameInjective(a: nat, b: nat)
    ensures TicketName(a) == TicketName(b) <==> a == b
  {
    if TicketName(a) == TicketName(b) {
      assert TicketName(a)[|NAME|..] == NatToDecimal(a);
      assert TicketName(b)[|NAME|..] == NatToDecimal(b);
      DecimalInjective(a, b);
    }
  }

  lemma TicketNameHasNoNul(id: nat)
    ensures NUL !in TicketName(id)
  {
    var r := TicketName(id);
    forall i | 0 <= i < |r| ensures r[i] != NUL {
      if i >= |NAME| {
        assert r[i] == r[|NAME|..][i - |NAME|];
      }
    }
  }

  /** `s.replace("\u{0}", "")`: every NUL character removed, the rest kept in order. */
  function StripNul(s: string): (r: string)
    ensures NUL !in r
    ensures |r| <= |s|
    ensures forall c :: c in r <==> c in s && c != NUL
    ensures NUL !in s ==> r == s
  {
    if s == [] then [] else (if s[0] == NUL then [] else [s[0]]) + StripNul(s[1..])
  }

  /** Each character other than NUL keeps its number of occurrences; no NUL is left. */
  lemma {:induction false} StripNulCounts(s: string)
    ensures multiset(StripNul(s)) == multiset(s)[NUL := 0]
  {
    if s != [] {
      assert s == [s[0]] + s[1..];
      StripNulCounts(s[1..]);
    }
  }

  lemma {:induction false} StripNulAppend(a: string, b: string)
    ensures StripNul(a + b) == StripNul(a) + StripNul(b)
  {
    if a != [] {
      assert (a + b)[1..] == a[1..] + b;
      StripNulAppend(a[1..], b);
    } else {
      assert a + b == b;
    }
  }

  /** `n` NUL characters, the padding of a fixed-width metadata name field. */
  function Nuls(n: nat): (r: string)
    ensures |r| == n && forall i :: 0 <= i < n ==> r[i] == NUL
  {
    seq(n, _ => NUL)
  }

  lemma {:induction false} StripNulOfNuls(n: nat)
    ensures StripNul(Nuls(n)) == []
  {
    if n > 0 {
      assert Nuls(n)[1..] == Nuls(n - 1);
      StripNulOfNuls(n - 1);
    }
  }

  /** Stripping undoes the padding of a ticket name. */
  lemma StripPaddedName(id: nat, pad: nat)
    ensures StripNul(TicketName(id) + Nuls(pad)) == TicketName(id)
  {
    StripNulAppend(TicketName(id), Nuls(pad));
    StripNulOfNuls(pad);
    TicketNameHasNoNul(id);
  }

  /**
   * The name comparison of the prize claim, applied to the padded name of
   * the ticket minted for counter `id`, accepts exactly when `id` is the
   * winning id.
   */
  lemma NameCheckSelectsWinner(id: nat, winner: nat, pad: nat)
    ensures StripNul(TicketName(id) + Nuls(pad)) == TicketName(winner) <==> id == winner
  {
    StripPaddedName(id, pad);
    TicketNameInjective(id, winner);
  }
}
