/**
 * The `TokenLottery` account as an object whose handlers update its fields
 * in place, in the order the program writes them. Each handler is proved to
 * agree with its transition function in LotteryRules, and to keep the
 * record's invariant over two ghost logs: the tickets minted and the
 * payouts made.
 */
module TokenLotteryProgram {
  import opened Bytes
  import opened Tickets
  import LotteryRules

  type Error = LotteryRules.Error
  type Result<T> = LotteryRules.Result<T>

  class TokenLottery {
    var winningTicketId: u64
    var winnerChosen: bool
    var lotteryStart: u64
    var lotteryEnd: u64
    var lotteryPotAmount: u64
    var totalTickets: u64
    var price: u64
    var randomnessAccount: Pubkey
    var authority: Pubkey

    /** The tickets minted by successful purchases, in order. */
    ghost var tickets: seq<Ticket>
    /** The amounts paid out by successful claims, in order. */
    ghost var payouts: seq<u64>

    function State(): LotteryRules.State
      reads this
    {
      LotteryRules.State(winningTicketId, winnerChosen, lotteryStart, lotteryEnd,
                         lotteryPotAmount, totalTickets, price, randomnessAccount, authority)
    }

    ghost predicate Valid()
      reads this
    {
      LotteryRules.Accounted(State(), tickets, payouts)
    }

    /** `initialize_config`, run against the freshly created account. */
    constructor InitializeConfig(payer: Pubkey, start: u64, end: u64, price: u64)
      ensures Valid() && tickets == [] && payouts == []
      ensures lotteryStart == start && lotteryEnd == end && this.price == price
      ensures authority == payer && randomnessAccount == DefaultPubkey
      ensures totalTickets == 0 && lotteryPotAmount == 0 && !winnerChosen && winningTicketId == 0
      ensures State() == LotteryRules.InitializeConfig(payer, start, end, price)
    {
      winningTicketId := 0;
      lotteryStart := start;
      lotteryEnd := end;
      this.price := price;
      authority := payer;
      randomnessAccount := DefaultPubkey;
      totalTickets := 0;
      lotteryPotAmount := 0;
      winnerChosen := false;
      tickets := [];
      payouts := [];
    }

    /**
     * `buy_ticket`. The pot is written before the mint calls, as in the
     * program; when a later step fails the runtime discards that write,
     * which is modelled by restoring the old pot.
     */
    method BuyTicket(buyer: Pubkey, slot: u64, transferOk: bool, mintOk: bool)
      returns (r: Result<Ticket>)
      requires Valid()
      modifies this
      ensures Valid()
      ensures r.Err? ==> unchanged(this)
      ensures r.Err? ==> LotteryRules.BuyTicket(old(State()), buyer, slot, transferOk, mintOk) == LotteryRules.Err(r.error)
      ensures r.Ok? ==> LotteryRules.BuyTicket(old(State()), buyer, slot, transferOk, mintOk) == LotteryRules.Ok((State(), r.value))
      ensures r.Ok? ==> r.value.id == old(totalTickets) && tickets == old(tickets) + [r.value] && payouts == old(payouts)
    {
      var ticketId := totalTickets;
      if !(lotteryStart <= slot && slot <= lotteryEnd) {
        return LotteryRules.Err(LotteryRules.LotteryNotOpen);
      }
      if !transferOk {
        return LotteryRules.Err(LotteryRules.CpiFailed);
      }
      if lotteryPotAmount + price >= U64_MODULUS {
        return LotteryRules.Err(LotteryRules.ArithmeticOverflow);
      }
      var potBefore := lotteryPotAmount;
      lotteryPotAmount := lotteryPotAmount + price;
      if !mintOk {
        lotteryPotAmount := potBefore;
        return LotteryRules.Err(LotteryRules.CpiFailed);
      }
      if totalTickets + 1 >= U64_MODULUS {
        lotteryPotAmount := potBefore;
        return LotteryRules.Err(LotteryRules.ArithmeticOverflow);
      }
      totalTickets := totalTickets + 1;
      var ticket := TicketFor(ticketId, buyer);
      LotteryRules.BuyKeepsAccounted(old(State()), tickets, payouts, buyer, slot, transferOk, mintOk);
      tickets := tickets + [ticket];
      r := LotteryRules.Ok(ticket);
    }

    /** `commit_winner`. */
    method CommitWinner(payer: Pubkey, slot: u64, rnd: LotteryRules.RandomnessAccount)
      returns (r: Result<()>)
      requires Valid()
      modifies this
      ensures Valid()
      ensures r.Err? ==> unchanged(this)
      ensures r.Err? ==> LotteryRules.CommitWinner(old(State()), payer, slot, rnd) == LotteryRules.Err(r.error)
      ensures r.Ok? ==> LotteryRules.CommitWinner(old(State()), payer, slot, rnd) == LotteryRules.Ok(State())
      ensures r.Ok? ==> tickets == old(tickets) && payouts == old(payouts)
    {
      if payer != authority {
        return LotteryRules.Err(LotteryRules.NotAuthorized);
      }
      if rnd.data.None? {
        return LotteryRules.Err(LotteryRules.RandomnessParseFailed);
      }
      if slot == 0 {
        return LotteryRules.Err(LotteryRules.ArithmeticOverflow);
      }
      if rnd.data.value.seedSlot != slot - 1 {
        return LotteryRules.Err(LotteryRules.RandomnessAlreadyRevealed);
      }
      randomnessAccount := rnd.key;
      r := LotteryRules.Ok(());
    }

    /** `reveal_winner`; on success the output is the winning ticket id. */
    method RevealWinner(payer: Pubkey, slot: u64, rnd: LotteryRules.RandomnessAccount)
      returns (r: Result<u64>)
      requires Valid()
      modifies this
      ensures Valid()
      ensures r.Err? ==> unchanged(this)
      ensures r.Err? ==> LotteryRules.RevealWinner(old(State()), payer, slot, rnd) == LotteryRules.Err(r.error)
      ensures r.Ok? ==> LotteryRules.RevealWinner(old(State()), payer, slot, rnd) == LotteryRules.Ok((State(), r.value))
      ensures r.Ok? ==> r.value < totalTickets && winnerChosen && winningTicketId == r.value
      ensures r.Ok? ==> tickets == old(tickets) && payouts == old(payouts)
    {
      if rnd.key != randomnessAccount {
        return LotteryRules.Err(LotteryRules.IncorrectRandomnessAccount);
      }
      if payer != authority {
        return LotteryRules.Err(LotteryRules.NotAuthorized);
      }
      if slot < lotteryEnd {
        return LotteryRules.Err(LotteryRules.LotteryNotCompleted);
      }
      if winnerChosen {
        return LotteryRules.Err(LotteryRules.WinnerChosen);
      }
      if totalTickets == 0 {
        return LotteryRules.Err(LotteryRules.NoTicketsSold);
      }
      if rnd.data.None? {
        return LotteryRules.Err(LotteryRules.RandomnessParseFailed);
      }
      if rnd.data.value.value.None? {
        return LotteryRules.Err(LotteryRules.RandomnessNotResolved);
      }
      var revealed := rnd.data.value.value.value;
      var winner := LotteryRules.WinnerFromRandomness(revealed[0], totalTickets);
      winningTicketId := winner;
      winnerChosen := true;
      r := LotteryRules.Ok(winner);
    }

    /** `claim_prize`; on success the output is the amount paid out. */
    method ClaimPrize(metadata: LotteryRules.Metadata, collectionMint: Pubkey, balance: u64,
                      transferOk: bool)
      returns (r: Result<u64>)
      requires Valid()
      modifies this
      ensures Valid()
      ensures r.Err? ==> unchanged(this)
      ensures r.Err? ==> LotteryRules.ClaimPrize(old(State()), metadata, collectionMint, balance, transferOk) == LotteryRules.Err(r.error)
      ensures r.Ok? ==> LotteryRules.ClaimPrize(old(State()), metadata, collectionMint, balance, transferOk) == LotteryRules.Ok((State(), r.value))
      ensures r.Ok? ==> r.value == old(lotteryPotAmount) && lotteryPotAmount == 0
      ensures r.Ok? ==> tickets == old(tickets) && payouts == old(payouts) + [r.value]
    {
      if !winnerChosen {
        return LotteryRules.Err(LotteryRules.WinnerNotChosen);
      }
      if metadata.collection.None? {
        return LotteryRules.Err(LotteryRules.NoCollection);
      }
      var collection := metadata.collection.value;
      if !collection.verified {
        return LotteryRules.Err(LotteryRules.NotVerifiedTicket);
      }
      if collection.key != collectionMint {
        return LotteryRules.Err(LotteryRules.IncorrectTicket);
      }
      var ticketName := TicketName(winningTicketId);
      var metadataName := StripNul(metadata.name);
      if metadataName != ticketName {
        return LotteryRules.Err(LotteryRules.IncorrectTicket);
      }
      if balance == 0 {
        return LotteryRules.Err(LotteryRules.IncorrectTicket);
      }
      if !transferOk {
        return LotteryRules.Err(LotteryRules.CpiFailed);
      }
      var paid := lotteryPotAmount;
      LotteryRules.ClaimKeepsAccounted(old(State()), tickets, payouts, metadata, collectionMint,
                                       balance, transferOk);
      lotteryPotAmount := 0;
      payouts := payouts + [paid];
      r := LotteryRules.Ok(paid);
    }
  }

  /**
   * A whole lottery, as a client sees it through the handlers' contracts:
   * a window of slots 100 to 200 at price 10, five sales, a purchase after
   * the window, a commit and a reveal drawing 23 % 5 = 3, a second reveal,
   * and a claim by someone who holds no token of the winning ticket.
   */
  method EndToEnd(admin: Pubkey, buyer: Pubkey, handle: Pubkey, value: Bytes32, mint: Pubkey)
    requires value[0] == 23
  {
    var lottery := new TokenLottery.InitializeConfig(admin, 100, 200, 10);
    var bought := lottery.BuyTicket(buyer, 150, true, true);
    assert bought == LotteryRules.Ok(TicketFor(0, buyer));
    assert lottery.totalTickets == 1 && lottery.lotteryPotAmount == 10;

    bought := lottery.BuyTicket(buyer, 201, true, true);
    assert bought == LotteryRules.Err(LotteryRules.LotteryNotOpen);
    assert lottery.totalTickets == 1 && lottery.lotteryPotAmount == 10;

    SellFourMore(lottery, admin, buyer);
    DrawAndClaim(lottery, admin, handle, value, mint);
  }

  /** The remaining four sales of EndToEnd, ids 1 to 4. */
  method SellFourMore(lottery: TokenLottery, admin: Pubkey, buyer: Pubkey)
    requires lottery.Valid()
    requires lottery.State() == LotteryRules.State(0, false, 100, 200, 10, 1, 10, DefaultPubkey, admin)
    modifies lottery
    ensures lottery.Valid()
    ensures lottery.State() == LotteryRules.State(0, false, 100, 200, 50, 5, 10, DefaultPubkey, admin)
  {
    var bought;
    bought := lottery.BuyTicket(buyer, 150, true, true);
    assert bought.value.id == 1;
    assert lottery.State() == LotteryRules.State(0, false, 100, 200, 20, 2, 10, DefaultPubkey, admin);
    bought := lottery.BuyTicket(buyer, 160, true, true);
    assert bought.value.id == 2;
    assert lottery.State() == LotteryRules.State(0, false, 100, 200, 30, 3, 10, DefaultPubkey, admin);
    bought := lottery.BuyTicket(buyer, 170, true, true);
    assert bought.value.id == 3;
    assert lottery.State() == LotteryRules.State(0, false, 100, 200, 40, 4, 10, DefaultPubkey, admin);
    bought := lottery.BuyTicket(buyer, 200, true, true);
    assert bought.value.id == 4;
    assert lottery.State() == LotteryRules.State(0, false, 100, 200, 50, 5, 10, DefaultPubkey, admin);
  }

  /** The draw and claim half of EndToEnd, from a lottery with five tickets sold. */
  method DrawAndClaim(lottery: TokenLottery, admin: Pubkey, handle: Pubkey, value: Bytes32, mint: Pubkey)
    requires value[0] == 23
    requires lottery.Valid()
    requires lottery.State() == LotteryRules.State(0, false, 100, 200, 50, 5, 10, DefaultPubkey, admin)
    modifies lottery
  {
    var pending := LotteryRules.RandomnessAccount(handle, LotteryRules.Some(LotteryRules.RandomnessData(198, LotteryRules.None)));
    var committed := lottery.CommitWinner(admin, 199, pending);
    assert committed.Ok? && lottery.randomnessAccount == handle;

    var drawn := lottery.RevealWinner(admin, 200, pending);
    assert drawn == LotteryRules.Err(LotteryRules.RandomnessNotResolved);

    var resolved := LotteryRules.RandomnessAccount(handle, LotteryRules.Some(LotteryRules.RandomnessData(198, LotteryRules.Some(value))));
    drawn := lottery.RevealWinner(admin, 200, resolved);
    assert drawn == LotteryRules.Ok(3);

    drawn := lottery.RevealWinner(admin, 201, resolved);
    assert drawn == LotteryRules.Err(LotteryRules.WinnerChosen) && lottery.winningTicketId == 3;

    StripPaddedName(3, 10);
    var winningMetadata := LotteryRules.Metadata(TicketName(3) + Nuls(10), LotteryRules.Some(LotteryRules.Collection(true, mint)));
    var claimed := lottery.ClaimPrize(winningMetadata, mint, 0, true);
    assert claimed == LotteryRules.Err(LotteryRules.IncorrectTicket) && lottery.lotteryPotAmount == 50;
  }
}
