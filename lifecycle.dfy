/**
 * The lottery over its whole life: any sequence of handler calls after
 * `initialize_config`, run one at a time (the runtime serialises the
 * transactions that write the record). A failed call leaves everything as it
 * was; a successful purchase adds its ticket to the list of minted tickets
 * and a successful claim adds its payout to the list of payouts.
 */
module Lifecycle {
  import opened Bytes
  import opened Tickets
  import opened LotteryRules

  datatype Call =
    | Buy(buyer: Pubkey, slot: u64, transferOk: bool, mintOk: bool)
    | Commit(payer: Pubkey, slot: u64, randomness: RandomnessAccount)
    | Reveal(payer: Pubkey, slot: u64, randomness: RandomnessAccount)
    | Claim(metadata: Metadata, collectionMint: Pubkey, balance: u64, transferOk: bool)

  /** The record together with the tickets minted and the amounts paid out so far. */
  datatype Trail = Trail(state: State, tickets: seq<Ticket>, payouts: seq<u64>)

  function Start(payer: Pubkey, start: u64, end: u64, price: u64): Trail
  {
    Trail(InitializeConfig(payer, start, end, price), [], [])
  }

  function Apply(t: Trail, c: Call): Trail
  {
    match c
    case Buy(buyer, slot, transferOk, mintOk) =>
      var r := BuyTicket(t.state, buyer, slot, transferOk, mintOk);
      if r.Ok? then Trail(r.value.0, t.tickets + [r.value.1], t.payouts) else t
    case Commit(payer, slot, rnd) =>
      var r := CommitWinner(t.state, payer, slot, rnd);
      if r.Ok? then t.(state := r.value) else t
    case Reveal(payer, slot, rnd) =>
      var r := RevealWinner(t.state, payer, slot, rnd);
      if r.Ok? then t.(state := r.value.0) else t
    case Claim(metadata, mint, balance, transferOk) =>
      var r := ClaimPrize(t.state, metadata, mint, balance, transferOk);
      if r.Ok? then Trail(r.value.0, t.tickets, t.payouts + [r.value.1]) else t
  }

  function Run(t: Trail, calls: seq<Call>): Trail
    decreases |calls|
  {
    if calls == [] then t else Run(Apply(t, calls[0]), calls[1..])
  }

  ghost predicate Good(t: Trail) {
    Accounted(t.state, t.tickets, t.payouts)
  }

  lemma ApplyKeepsGood(t: Trail, c: Call)
    requires Good(t)
    ensures Good(Apply(t, c))
  {
    match c
    case Buy(buyer, slot, transferOk, mintOk) =>
      if BuyTicket(t.state, buyer, slot, transferOk, mintOk).Ok? {
        BuyKeepsAccounted(t.state, t.tickets, t.payouts, buyer, slot, transferOk, mintOk);
      }
    case Commit(payer, slot, rnd) =>
      if CommitWinner(t.state, payer, slot, rnd).Ok? {
        CommitKeepsAccounted(t.state, t.tickets, t.payouts, payer, slot, rnd);
      }
    case Reveal(payer, slot, rnd) =>
      if RevealWinner(t.state, payer, slot, rnd).Ok? {
        RevealKeepsAccounted(t.state, t.tickets, t.payouts, payer, slot, rnd);
      }
    case Claim(metadata, mint, balance, transferOk) =>
      if ClaimPrize(t.state, metadata, mint, balance, transferOk).Ok? {
        ClaimKeepsAccounted(t.state, t.tickets, t.payouts, metadata, mint, balance, transferOk);
      }
  }

  lemma {:induction false} RunKeepsGood(t: Trail, calls: seq<Call>)
    requires Good(t)
    ensures Good(Run(t, calls))
    decreases |calls|
  {
    if calls != [] {
      ApplyKeepsGood(t, calls[0]);
      RunKeepsGood(Apply(t, calls[0]), calls[1..]);
    }
  }

  /**
   * Whatever calls follow `initialize_config`, the minted tickets carry the
   * ids 0, 1, 2, ... in order with no gap, each with the name and mint seed
   * of its id, and there are exactly `total_tickets` of them.
   */
  lemma TicketIdsAreGapless(payer: Pubkey, start: u64, end: u64, price: u64, calls: seq<Call>)
    ensures var u := Run(Start(payer, start, end, price), calls);
            && |u.tickets| == u.state.totalTickets
            && forall i :: 0 <= i < |u.tickets| ==>
                 u.tickets[i].id == i && u.tickets[i].name == TicketName(i)
                 && u.tickets[i].mintSeed == U64ToLeBytes(i)
  {
    RunKeepsGood(Start(payer, start, end, price), calls);
  }

  /**
   * Whatever calls follow `initialize_config`, the pot plus everything paid
   * out equals price times tickets sold; so until the first successful claim
   * the pot is exactly price times tickets sold.
   */
  lemma PotMatchesSales(payer: Pubkey, start: u64, end: u64, price: u64, calls: seq<Call>)
    ensures var u := Run(Start(payer, start, end, price), calls);
            && u.state.lotteryPotAmount + Sum(u.payouts) == price * u.state.totalTickets
            && (u.payouts == [] ==> u.state.lotteryPotAmount == price * u.state.totalTickets)
  {
    RunKeepsGood(Start(payer, start, end, price), calls);
    ConfigIsFixed(Start(payer, start, end, price), calls);
  }

  /** Whatever calls follow `initialize_config`, a chosen winner holds a sold ticket's id. */
  lemma WinnerIsSoldTicket(payer: Pubkey, start: u64, end: u64, price: u64, calls: seq<Call>)
    ensures var u := Run(Start(payer, start, end, price), calls);
            u.state.winnerChosen ==> u.state.winningTicketId < u.state.totalTickets
  {
    RunKeepsGood(Start(payer, start, end, price), calls);
  }

  /** No handler changes the window, the price or the authority. */
  lemma {:induction false} ConfigIsFixed(t: Trail, calls: seq<Call>)
    ensures var u := Run(t, calls).state;
            && u.lotteryStart == t.state.lotteryStart && u.lotteryEnd == t.state.lotteryEnd
            && u.price == t.state.price && u.authority == t.state.authority
    decreases |calls|
  {
    if calls != [] {
      ConfigIsFixed(Apply(t, calls[0]), calls[1..]);
    }
  }

  /**
   * Sales only grow: the ticket counter never decreases and earlier tickets
   * stay as minted.
   */
  lemma {:induction false} SalesOnlyGrow(t: Trail, calls: seq<Call>)
    ensures var u := Run(t, calls);
            && u.state.totalTickets >= t.state.totalTickets
            && |u.tickets| >= |t.tickets| && u.tickets[..|t.tickets|] == t.tickets
    decreases |calls|
  {
    if calls != [] {
      var t1 := Apply(t, calls[0]);
      assert t1.state.totalTickets >= t.state.totalTickets;
      assert |t1.tickets| >= |t.tickets| && t1.tickets[..|t.tickets|] == t.tickets;
      SalesOnlyGrow(t1, calls[1..]);
      var u := Run(t, calls);
      assert u.tickets[..|t1.tickets|] == t1.tickets;
      assert u.tickets[..|t.tickets|] == u.tickets[..|t1.tickets|][..|t.tickets|];
    }
  }

  /** Once a winner is chosen it stays chosen, with the same id, whatever follows. */
  lemma {:induction false} WinnerIsFinal(t: Trail, calls: seq<Call>)
    requires t.state.winnerChosen
    ensures Run(t, calls).state.winnerChosen
    ensures Run(t, calls).state.winningTicketId == t.state.winningTicketId
    decreases |calls|
  {
    if calls != [] {
      WinnerIsFinal(Apply(t, calls[0]), calls[1..]);
    }
  }

  /**
   * A second reveal after a successful one fails; once its handle, signer
   * and slot checks pass, it fails with `WinnerChosen`.
   */
  lemma RevealSucceedsOnce(s: State, payer: Pubkey, slot: u64, rnd: RandomnessAccount,
                           payer2: Pubkey, slot2: u64, rnd2: RandomnessAccount)
    requires RevealWinner(s, payer, slot, rnd).Ok?
    ensures var s1 := RevealWinner(s, payer, slot, rnd).value.0;
            && RevealWinner(s1, payer2, slot2, rnd2).Err?
            && (rnd2.key == s1.randomnessAccount && payer2 == s1.authority && slot2 >= s1.lotteryEnd
                ==> RevealWinner(s1, payer2, slot2, rnd2).error == WinnerChosen)
  {
  }

  /**
   * `RandomnessNotResolved` is retryable: the record is unchanged, and the
   * same call at the same or a later slot, once the oracle has resolved the
   * request, succeeds and draws from the first byte of the value.
   */
  lemma RevealCanBeRetried(s: State, payer: Pubkey, slot: u64, key: Pubkey, seedSlot: u64,
                           later: u64, value: Bytes32)
    requires RevealWinner(s, payer, slot,
                          RandomnessAccount(key, Some(RandomnessData(seedSlot, None))))
             == Err(RandomnessNotResolved)
    requires later >= slot
    ensures var retry := RevealWinner(s, payer, later,
                                      RandomnessAccount(key, Some(RandomnessData(seedSlot, Some(value)))));
            && retry.Ok?
            && retry.value.1 == WinnerFromRandomness(value[0], s.totalTickets)
  {
  }

  /**
   * The claim's name check, given the metadata of a minted ticket (its name
   * padded with NULs), passes exactly for the ticket whose id is the winning id.
   */
  lemma ClaimNameCheckSelectsWinner(t: Trail, i: nat, pad: nat)
    requires Good(t) && i < |t.tickets|
    ensures StripNul(t.tickets[i].name + Nuls(pad)) == TicketName(t.state.winningTicketId)
            <==> i == t.state.winningTicketId
  {
    NameCheckSelectsWinner(i, t.state.winningTicketId, pad);
  }

  /**
   * There is no claimed flag: a claim that succeeds right after a successful
   * claim leaves the record as it was and pays out nothing.
   */
  lemma RepeatClaimPaysNothing(s: State, metadata: Metadata, mint: Pubkey, balance: u64, ok: bool,
                               metadata2: Metadata, mint2: Pubkey, balance2: u64, ok2: bool)
    requires ClaimPrize(s, metadata, mint, balance, ok).Ok?
    ensures var s1 := ClaimPrize(s, metadata, mint, balance, ok).value.0;
            var again := ClaimPrize(s1, metadata2, mint2, balance2, ok2);
            again.Ok? ==> again.value == (s1, 0)
  {
  }

  /**
   * The sale window and the reveal share the slot `lottery_end`: at that
   * slot a ticket can still be bought after the winner is chosen and after
   * the prize is claimed, which refills the pot.
   */
  lemma SaleOutlivesClaimAtEndSlot(s: State, payer: Pubkey, rnd: RandomnessAccount,
                                   metadata: Metadata, mint: Pubkey, balance: u64, buyer: Pubkey)
    requires s.lotteryStart <= s.lotteryEnd
    requires s.price > 0 && s.totalTickets + 1 < U64_MODULUS
    requires RevealWinner(s, payer, s.lotteryEnd, rnd).Ok?
    requires ClaimPrize(RevealWinner(s, payer, s.lotteryEnd, rnd).value.0, metadata, mint, balance, true).Ok?
    ensures var s1 := RevealWinner(s, payer, s.lotteryEnd, rnd).value.0;
            var s2 := ClaimPrize(s1, metadata, mint, balance, true).value.0;
            var bought := BuyTicket(s2, buyer, s.lotteryEnd, true, true);
            && bought.Ok?
            && bought.value.0.winnerChosen
            && bought.value.0.lotteryPotAmount == s.price > 0
  {
  }
}
