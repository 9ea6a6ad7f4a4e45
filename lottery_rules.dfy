/**
 * The lottery record and its five handlers as pure transition functions.
 *
 * Each handler takes the record and the facts it reads from the outside
 * world (the clock slot, the signer's key, the oracle account, the ticket's
 * metadata and token balance, whether each foreign call succeeds) and
 * returns either the record after the call together with the call's output,
 * or an error. An error carries no record: the Solana runtime discards every
 * write of a failed transaction, so a failed call leaves the record as it was.
 */
module LotteryRules {
  import opened Bytes
  import opened Tickets

  datatype Option<T> = None | Some(value: T)

  /**
   * The program's `ErrorCode` variants, followed by the three ways a
   * transaction aborts without one: an arithmetic overflow under Rust's
   * overflow checks, the `unwrap` of an oracle account that does not parse,
   * and a failing cross-program call.
   */
  datatype Error =
    | IncorrectRandomnessAccount
    | LotteryNotCompleted
    | LotteryNotOpen
    | NotAuthorized
    | RandomnessAlreadyRevealed
    | RandomnessNotResolved
    | WinnerNotChosen
    | WinnerChosen
    | NotVerifiedTicket
    | IncorrectTicket
    | NoTicketsSold
    | NoCollection
    | ArithmeticOverflow
    | RandomnessParseFailed
    | CpiFailed

  datatype Result<T> = Ok(value: T) | Err(error: Error)

  /** The `TokenLottery` account, without its PDA bump. */
  datatype State = State(
    winningTicketId: u64,
    winnerChosen: bool,
    lotteryStart: u64,
    lotteryEnd: u64,
    lotteryPotAmount: u64,
    totalTickets: u64,
    price: u64,
    randomnessAccount: Pubkey,
    authority: Pubkey)

  /**
   * What the oracle account yields once parsed: the slot its request was
   * seeded at, and the value `get_value` returns at the current slot, if
   * the request has been resolved.
   */
  datatype RandomnessData = RandomnessData(seedSlot: u64, value: Option<Bytes32>)

  /** The oracle account passed to a call: its key, and its data if it parses. */
  datatype RandomnessAccount = RandomnessAccount(key: Pubkey, data: Option<RandomnessData>)

  /** The collection entry of a ticket's metadata account. */
  datatype Collection = Collection(verified: bool, key: Pubkey)

  /** The fields of a ticket's metadata account that the claim reads. */
  datatype Metadata = Metadata(name: string, collection: Option<Collection>)

  function Sum(xs: seq<u64>): nat
  {
    if xs == [] then 0 else Sum(xs[..|xs| - 1]) + xs[|xs| - 1]
  }

  /**
   * The record's invariant, given the tickets minted so far and the amounts
   * paid out by claims so far: the tickets are numbered 0, 1, 2, ... in
   * order with no gaps, every lamport taken in is either in the pot or was
   * paid out, the winning id names a sold ticket, and nothing was paid out
   * before a winner was chosen.
   */
  ghost predicate Accounted(s: State, tickets: seq<Ticket>, payouts: seq<u64>)
  {
    && |tickets| == s.totalTickets
    && (forall i :: 0 <= i < |tickets| ==> tickets[i] == TicketFor(i, tickets[i].owner))
    && s.lotteryPotAmount + Sum(payouts) == s.price * s.totalTickets
    && (s.winnerChosen ==> s.winningTicketId < s.totalTickets)
    && (payouts != [] ==> s.winnerChosen)
  }

  /** `initialize_config`; the winning id keeps the zero of a freshly created account. */
  function InitializeConfig(payer: Pubkey, start: u64, end: u64, price: u64): (s: State)
    ensures s.lotteryStart == start && s.lotteryEnd == end && s.price == price
    ensures s.authority == payer && s.randomnessAccount == DefaultPubkey
    ensures s.totalTickets == 0 && s.lotteryPotAmount == 0 && !s.winnerChosen
    ensures Accounted(s, [], [])
  {
    State(0, false, start, end, 0, 0, price, DefaultPubkey, payer)
  }

  predicate InWindow(s: State, slot: u64) {
    s.lotteryStart <= slot <= s.lotteryEnd
  }

  /**
   * `buy_ticket`: `transferOk` is the outcome of the payment to the pot,
   * `mintOk` that of the four calls that mint the ticket, create its metadata
   * and master edition, and add it to the collection.
   */
  function BuyTicket(s: State, buyer: Pubkey, slot: u64, transferOk: bool, mintOk: bool)
    : (r: Result<(State, Ticket)>)
    ensures !InWindow(s, slot) ==> r == Err(LotteryNotOpen)
    ensures r.Err? && InWindow(s, slot) ==> r.error == CpiFailed || r.error == ArithmeticOverflow
    ensures r.Ok? <==> InWindow(s, slot) && transferOk && mintOk
                       && s.lotteryPotAmount + s.price < U64_MODULUS
                       && s.totalTickets + 1 < U64_MODULUS
    ensures r.Ok? ==> r.value.0.lotteryPotAmount == s.lotteryPotAmount + s.price
    ensures r.Ok? ==> r.value.0.totalTickets == s.totalTickets + 1
    ensures r.Ok? ==> r.value.0 == s.(lotteryPotAmount := r.value.0.lotteryPotAmount,
                                      totalTickets := r.value.0.totalTickets)
    ensures r.Ok? ==> r.value.1 == TicketFor(s.totalTickets, buyer)
  {
    if !(s.lotteryStart <= slot && slot <= s.lotteryEnd) then Err(LotteryNotOpen)
    else if !transferOk then Err(CpiFailed)
    else if s.lotteryPotAmount + s.price >= U64_MODULUS then Err(ArithmeticOverflow)
    else if !mintOk then Err(CpiFailed)
    else if s.totalTickets + 1 >= U64_MODULUS then Err(ArithmeticOverflow)
    else
      Ok((s.(lotteryPotAmount := s.lotteryPotAmount + s.price, totalTickets := s.totalTickets + 1),
          TicketFor(s.totalTickets, buyer)))
  }

  /** The oracle request was seeded exactly one slot before `slot`. */
  predicate SeededJustBefore(rnd: RandomnessAccount, slot: u64) {
    rnd.data.Some? && rnd.data.value.seedSlot + 1 == slot
  }

  /** `commit_winner`. */
  function CommitWinner(s: State, payer: Pubkey, slot: u64, rnd: RandomnessAccount)
    : (r: Result<State>)
    ensures payer != s.authority ==> r == Err(NotAuthorized)
    ensures payer == s.authority && rnd.data.Some? && slot > 0 && !SeededJustBefore(rnd, slot)
            ==> r == Err(RandomnessAlreadyRevealed)
    ensures r.Ok? <==> payer == s.authority && SeededJustBefore(rnd, slot)
    ensures r.Ok? ==> r.value == s.(randomnessAccount := rnd.key)
  {
    if payer != s.authority then Err(NotAuthorized)
    else if rnd.data.None? then Err(RandomnessParseFailed)
    else if slot == 0 then Err(ArithmeticOverflow)
    else if rnd.data.value.seedSlot != slot - 1 then Err(RandomnessAlreadyRevealed)
    else Ok(s.(randomnessAccount := rnd.key))
  }

  /** `revealed_random_value[0] as u64 % total_tickets`. */
  function WinnerFromRandomness(v: byte, total: u64): (w: u64)
    requires total > 0
    ensures w < total && w <= v
    ensures v < total ==> w == v
    ensures v == (v / total) * total + w
  {
    ModBelowDividend(v, total);
    v % total
  }

  lemma ModBelowDividend(v: nat, n: nat)
    requires n > 0
    ensures v % n <= v
  {
  }

  /**
   * Only the first byte of the oracle value is used, so the ids that can be
   * drawn are those below both the number of tickets and 256.
   */
  lemma DrawableWinners(total: u64, w: u64)
    requires total > 0
    ensures (exists v: byte :: WinnerFromRandomness(v, total) == w) <==> w < total && w < 256
  {
    if w < total && w < 256 {
      assert WinnerFromRandomness(w, total) == w;
    }
  }

  /** The five guards of `reveal_winner` that precede the oracle read. */
  predicate RevealAllowed(s: State, payer: Pubkey, slot: u64, rnd: RandomnessAccount) {
    && rnd.key == s.randomnessAccount
    && payer == s.authority
    && slot >= s.lotteryEnd
    && !s.winnerChosen
    && s.totalTickets > 0
  }

  predicate Resolved(rnd: RandomnessAccount) {
    rnd.data.Some? && rnd.data.value.value.Some?
  }

  /** `reveal_winner`; the output is the winning ticket id. */
  function RevealWinner(s: State, payer: Pubkey, slot: u64, rnd: RandomnessAccount)
    : (r: Result<(State, u64)>)
    ensures rnd.key != s.randomnessAccount ==> r == Err(IncorrectRandomnessAccount)
    ensures rnd.key == s.randomnessAccount && payer != s.authority ==> r == Err(NotAuthorized)
    ensures rnd.key == s.randomnessAccount && payer == s.authority && slot < s.lotteryEnd
            ==> r == Err(LotteryNotCompleted)
    ensures rnd.key == s.randomnessAccount && payer == s.authority && slot >= s.lotteryEnd
            && s.winnerChosen
            ==> r == Err(WinnerChosen)
    ensures rnd.key == s.randomnessAccount && payer == s.authority && slot >= s.lotteryEnd
            && !s.winnerChosen && s.totalTickets == 0
            ==> r == Err(NoTicketsSold)
    ensures RevealAllowed(s, payer, slot, rnd) && rnd.data.Some? && rnd.data.value.value.None?
            ==> r == Err(RandomnessNotResolved)
    ensures r.Ok? <==> RevealAllowed(s, payer, slot, rnd) && Resolved(rnd)
    ensures r.Ok? ==> r.value.1 < s.totalTickets
    ensures r.Ok? ==> r.value.1 == WinnerFromRandomness(rnd.data.value.value.value[0], s.totalTickets)
    ensures r.Ok? ==> r.value.0 == s.(winningTicketId := r.value.1, winnerChosen := true)
  {
    if rnd.key != s.randomnessAccount then Err(IncorrectRandomnessAccount)
    else if payer != s.authority then Err(NotAuthorized)
    else if slot < s.lotteryEnd then Err(LotteryNotCompleted)
    else if s.winnerChosen then Err(WinnerChosen)
    else if s.totalTickets == 0 then Err(NoTicketsSold)
    else if rnd.data.None? then Err(RandomnessParseFailed)
    else if rnd.data.value.value.None? then Err(RandomnessNotResolved)
    else
      var w := WinnerFromRandomness(rnd.data.value.value.value[0], s.totalTickets);
      Ok((s.(winningTicketId := w, winnerChosen := true), w))
  }

  /** The six checks of `claim_prize` that precede the payout. */
  predicate ClaimAllowed(s: State, metadata: Metadata, collectionMint: Pubkey, balance: u64) {
    && s.winnerChosen
    && metadata.collection.Some?
    && metadata.collection.value.verified
    && metadata.collection.value.key == collectionMint
    && StripNul(metadata.name) == TicketName(s.winningTicketId)
    && balance > 0
  }

  /**
   * `claim_prize`: `balance` is the claimant's token balance of the ticket
   * mint, `transferOk` the outcome of the payout; the output is the amount
   * paid out.
   */
  function ClaimPrize(s: State, metadata: Metadata, collectionMint: Pubkey, balance: u64,
                      transferOk: bool)
    : (r: Result<(State, u64)>)
    ensures !s.winnerChosen ==> r == Err(WinnerNotChosen)
    ensures s.winnerChosen && metadata.collection.None? ==> r == Err(NoCollection)
    ensures s.winnerChosen && metadata.collection.Some? && !metadata.collection.value.verified
            ==> r == Err(NotVerifiedTicket)
    ensures s.winnerChosen && metadata.collection.Some? && metadata.collection.value.verified
            && (metadata.collection.value.key != collectionMint
                || StripNul(metadata.name) != TicketName(s.winningTicketId)
                || balance == 0)
            ==> r == Err(IncorrectTicket)
    ensures r.Ok? <==> ClaimAllowed(s, metadata, collectionMint, balance) && transferOk
    ensures r.Ok? ==> r.value.1 == s.lotteryPotAmount
    ensures r.Ok? ==> r.value.0 == s.(lotteryPotAmount := 0)
  {
    if !s.winnerChosen then Err(WinnerNotChosen)
    else if metadata.collection.None? then Err(NoCollection)
    else if !metadata.collection.value.verified then Err(NotVerifiedTicket)
    else if metadata.collection.value.key != collectionMint then Err(IncorrectTicket)
    else if StripNul(metadata.name) != TicketName(s.winningTicketId) then Err(IncorrectTicket)
    else if balance == 0 then Err(IncorrectTicket)
    else if !transferOk then Err(CpiFailed)
    else Ok((s.(lotteryPotAmount := 0), s.lotteryPotAmount))
  }

  lemma SumAppend(xs: seq<u64>, x: u64)
    ensures Sum(xs + [x]) == Sum(xs) + x
  {
  }

  lemma OneMoreSale(price: nat, sold: nat)
    ensures price * (sold + 1) == price * sold + price
  {
  }

  lemma BuyKeepsAccounted(s: State, tickets: seq<Ticket>, payouts: seq<u64>,
                          buyer: Pubkey, slot: u64, transferOk: bool, mintOk: bool)
    requires Accounted(s, tickets, payouts)
    requires BuyTicket(s, buyer, slot, transferOk, mintOk).Ok?
    ensures Accounted(BuyTicket(s, buyer, slot, transferOk, mintOk).value.0,
                      tickets + [BuyTicket(s, buyer, slot, transferOk, mintOk).value.1], payouts)
  {
    var t := BuyTicket(s, buyer, slot, transferOk, mintOk).value.1;
    OneMoreSale(s.price, s.totalTickets);
    var ts := tickets + [t];
    forall i | 0 <= i < |ts| ensures ts[i] == TicketFor(i, ts[i].owner) {
      if i < |tickets| {
        assert ts[i] == tickets[i];
      }
    }
  }

  lemma CommitKeepsAccounted(s: State, tickets: seq<Ticket>, payouts: seq<u64>,
                             payer: Pubkey, slot: u64, rnd: RandomnessAccount)
    requires Accounted(s, tickets, payouts)
    requires CommitWinner(s, payer, slot, rnd).Ok?
    ensures Accounted(CommitWinner(s, payer, slot, rnd).value, tickets, payouts)
  {
  }

  lemma RevealKeepsAccounted(s: State, tickets: seq<Ticket>, payouts: seq<u64>,
                             payer: Pubkey, slot: u64, rnd: RandomnessAccount)
    requires Accounted(s, tickets, payouts)
    requires RevealWinner(s, payer, slot, rnd).Ok?
    ensures Accounted(RevealWinner(s, payer, slot, rnd).value.0, tickets, payouts)
  {
  }

  lemma ClaimKeepsAccounted(s: State, tickets: seq<Ticket>, payouts: seq<u64>,
                            metadata: Metadata, collectionMint: Pubkey, balance: u64,
                            transferOk: bool)
    requires Accounted(s, tickets, payouts)
    requires ClaimPrize(s, metadata, collectionMint, balance, transferOk).Ok?
    ensures Accounted(ClaimPrize(s, metadata, collectionMint, balance, transferOk).value.0, tickets,
                      payouts + [ClaimPrize(s, metadata, collectionMint, balance, transferOk).value.1])
  {
    SumAppend(payouts, s.lotteryPotAmount);
  }
}
