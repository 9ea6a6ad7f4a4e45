# Token lottery: a Dafny model of the lottery lifecycle

This project models the on-chain state machine of the Solana token-lottery
program (`programs/token-lottery/src/lib.rs`). One account, `TokenLottery`,
holds the sale window, the ticket price, the pot, the ticket counter, the
committed oracle handle, the authority and the winner. Five handlers change it:

- `initialize_config` sets the window, the price and the authority, and zeroes the counters.
- `buy_ticket` sells a ticket during the window. The pot grows by the price and the counter by one.
- `commit_winner` lets the authority bind an oracle request that was seeded one slot earlier.
- `reveal_winner` lets the authority draw the winning id from the oracle value after the window.
- `claim_prize` pays the pot to the holder of the ticket whose metadata name is that of the winning id.

The model has three layers:

- `bytes.dfy`, `decimal.dfy` and `tickets.dfy` hold the pure pieces:
  - `u64` and bytes;
  - the little-endian mint seed `to_le_bytes`;
  - the decimal rendering `to_string`;
  - the ticket name `"Token Lottery Ticket #" + id`;
  - the NUL stripping `replace("\u{0}", "")` applied to metadata names.
- `lottery_rules.dfy` gives each handler as a transition function. `InitializeConfig` returns the new `State`, `CommitWinner` returns `Result<State>`, and `BuyTicket`, `RevealWinner` and `ClaimPrize` return `Result<(State, output)>`. An error carries no state: the runtime reverts a failed transaction, so a failed call changes nothing. The same file defines the invariant `Accounted`, and one lemma per handler shows that the handler keeps it. The invariant says:
  - tickets are numbered 0, 1, 2, … in order;
  - pot plus payouts equals price times tickets sold;
  - a chosen winner holds a sold id;
  - no payout happens before a winner is chosen.
- `lifecycle.dfy` runs arbitrary sequences of calls after `initialize_config` and proves what holds over a whole lifetime.
- `token_lottery.dfy` is the account as a class. Its fields are updated in place in the program's order. Each handler method is proved equal to its transition function. Each keeps `Valid()`, the invariant over two ghost logs: the minted tickets and the payouts.

Facts from outside the program are plain inputs:

- the clock slot;
- the signer's key;
- the oracle account: its key, whether it parses, its seed slot, and the value at the current slot if resolved;
- the ticket metadata's name and collection entry;
- the claimant's token balance;
- whether each cross-program call succeeds.

Arithmetic overflow on `+=` and on `clock.slot - 1` aborts the transaction, as Rust's overflow checks do. The model returns `ArithmeticOverflow` for it. A failed `unwrap` of the oracle account returns `RandomnessParseFailed`. A failing cross-program call returns `CpiFailed`. The state is unchanged in every one of these cases.

Where the code and a natural reading of its design differ, the model follows the code:

- `initialize_config` does not check `start <= end`.
- `commit_winner` has no once-only guard. It overwrites the handle, even after a reveal.
- `reveal_winner` checks the handle before the signer.
- The claim compares metadata names, not ids. `Lifecycle.ClaimNameCheckSelectsWinner` shows that for a minted ticket this is the same as comparing ids, because decimal rendering is injective.
- The sale window (`slot <= lottery_end`) and the reveal (`slot >= lottery_end`) share the slot `lottery_end`. At that slot, tickets can still be bought after the draw and after the claim, so the pot can grow again after it was paid out. `Lifecycle.SaleOutlivesClaimAtEndSlot` states this. The invariant that holds throughout is pot plus payouts equals price times sales.
- The draw uses only the first byte of the oracle value. Ticket ids of 256 and above can never win (`LotteryRules.DrawableWinners`).
- There is no claimed flag. A repeated successful claim pays the current pot, which is 0 straight after a claim (`Lifecycle.RepeatClaimPaysNothing`).

## Model

| member | source | states |
|---|---|---|
| Bytes.U64ToLeBytes | programs/token-lottery/src/lib.rs:501-505 | the ticket mint seed is the counter's 8 little-endian bytes, and decoding them gives the counter back |
| Bytes.LeBytesRoundTrip | programs/token-lottery/src/lib.rs:504 | decoding the `width` little-endian bytes of any `n < 256^width` gives `n` back |
| Bytes.U64ToLeBytesInjective | programs/token-lottery/src/lib.rs:504 | two counters have the same mint seed exactly when they are equal, so every ticket has its own mint |
| Decimal.NatToDecimal | programs/token-lottery/src/lib.rs:164 | `to_string` yields a non-empty string of digits with no leading zero unless the number is 0 |
| Decimal.DecimalRoundTrip | programs/token-lottery/src/lib.rs:164 | reading back the rendered digits gives the number |
| Decimal.DecimalInjective | programs/token-lottery/src/lib.rs:364 | two numbers render alike exactly when they are equal |
| Tickets.TicketName | programs/token-lottery/src/lib.rs:29 | a ticket name is the prefix `NAME` followed only by decimal digits, and those digits read back as the id |
| Tickets.TicketFor | programs/token-lottery/src/lib.rs:164 | the ticket minted for counter `id` carries `id` and the buyer; its name is `NAME` followed by digits that read back as `id`; its mint seed is 8 bytes that decode to `id` |
| Tickets.TicketNameInjective | programs/token-lottery/src/lib.rs:364 | two ticket names are equal exactly when their ids are equal |
| Tickets.TicketNameHasNoNul | programs/token-lottery/src/lib.rs:164 | a ticket name contains no NUL character |
| Tickets.StripNul | programs/token-lottery/src/lib.rs:365 | the result has no NUL; a character occurs in it exactly when it is a non-NUL character of the input; it is no longer than the input; a NUL-free input is returned as is |
| Tickets.StripNulCounts | programs/token-lottery/src/lib.rs:365 | every non-NUL character occurs in the result as often as in the input, and NUL not at all |
| Tickets.StripNulAppend | programs/token-lottery/src/lib.rs:365 | stripping distributes over concatenation, so the non-NUL characters keep their order |
| Tickets.StripPaddedName | programs/token-lottery/src/lib.rs:365 | stripping a ticket name padded with any number of NULs gives the ticket name |
| Tickets.NameCheckSelectsWinner | programs/token-lottery/src/lib.rs:364-371 | the claim's name comparison on the padded name of ticket `id` passes exactly when `id` is the winning id |
| LotteryRules.InitializeConfig | programs/token-lottery/src/lib.rs:40-52 | start, end and price are stored verbatim; authority is the payer; the handle is the default key; counters are 0 and no winner is chosen; the invariant holds with no tickets and no payouts |
| LotteryRules.BuyTicket | programs/token-lottery/src/lib.rs:162-293 | outside `start <= slot <= end` the call fails with `LotteryNotOpen`; it succeeds exactly when the slot is in the window, the payment and the mint calls succeed, and neither the pot nor the counter overflows; success adds exactly `price` to the pot and 1 to the counter, changes nothing else, and issues the ticket of the pre-increment counter |
| LotteryRules.CommitWinner | programs/token-lottery/src/lib.rs:295-313 | a non-authority signer gets `NotAuthorized`; for the authority, a parsed request not seeded at `slot - 1` gets `RandomnessAlreadyRevealed`; success happens exactly when the authority signs and the request was seeded one slot earlier; it changes only the handle |
| LotteryRules.WinnerFromRandomness | programs/token-lottery/src/lib.rs:342-343 | the drawn id is the remainder of the byte divided by the ticket count: below the count, not above the byte, and the byte is a multiple of the count plus the id; a byte below the count is drawn as itself |
| LotteryRules.DrawableWinners | programs/token-lottery/src/lib.rs:342-343 | an id can be drawn from some byte exactly when it is below both the ticket count and 256 |
| LotteryRules.RevealWinner | programs/token-lottery/src/lib.rs:315-351 | the five guards fail in order: wrong handle, wrong signer, slot before the end, winner already chosen, no tickets; once they pass, an unresolved request gives `RandomnessNotResolved`; success happens exactly when the guards pass and the request is resolved; it draws `byte % total_tickets` below the count, records it, sets `winner_chosen` and changes nothing else |
| LotteryRules.ClaimPrize | programs/token-lottery/src/lib.rs:353-398 | in order: no winner → `WinnerNotChosen`, no collection → `NoCollection`, unverified → `NotVerifiedTicket`, wrong collection key, wrong NUL-stripped name or zero balance → `IncorrectTicket`; success happens exactly when all checks pass and the transfer succeeds; it pays the whole pot and zeroes it, changing nothing else |
| LotteryRules.BuyKeepsAccounted | programs/token-lottery/src/lib.rs:188 | a successful purchase keeps the invariant with its ticket appended to the minted tickets |
| LotteryRules.CommitKeepsAccounted | programs/token-lottery/src/lib.rs:310 | a successful commit keeps the invariant |
| LotteryRules.RevealKeepsAccounted | programs/token-lottery/src/lib.rs:347-348 | a successful reveal keeps the invariant: the winner is a sold id |
| LotteryRules.ClaimKeepsAccounted | programs/token-lottery/src/lib.rs:390-395 | a successful claim keeps the invariant with its payout appended: pot plus payouts still equals price times sales |
| Lifecycle.ApplyKeepsGood | programs/token-lottery/src/lib.rs:634-647 | every call, successful or not, keeps the record's invariant |
| Lifecycle.RunKeepsGood | programs/token-lottery/src/lib.rs:634-647 | any sequence of calls keeps the record's invariant |
| Lifecycle.TicketIdsAreGapless | programs/token-lottery/src/lib.rs:290 | after any calls following configuration, the minted tickets have ids 0, 1, …, n-1 in order; each has the name and mint seed of its id; n is `total_tickets` |
| Lifecycle.PotMatchesSales | programs/token-lottery/src/lib.rs:48-49 | after any calls following configuration, pot plus payouts equals price times tickets sold; with no payout yet, the pot is exactly price times tickets sold |
| Lifecycle.WinnerIsSoldTicket | programs/token-lottery/src/lib.rs:342-348 | after any calls following configuration, a chosen winning id is below `total_tickets` |
| Lifecycle.ConfigIsFixed | programs/token-lottery/src/lib.rs:42-45 | no call changes the window, the price or the authority |
| Lifecycle.SalesOnlyGrow | programs/token-lottery/src/lib.rs:290 | the ticket counter never decreases, and tickets already minted stay as they were |
| Lifecycle.WinnerIsFinal | programs/token-lottery/src/lib.rs:331 | once a winner is chosen it stays chosen, with the same id, whatever calls follow |
| Lifecycle.RevealSucceedsOnce | programs/token-lottery/src/lib.rs:331 | any reveal after a successful reveal fails; once its handle, signer and slot checks pass, it fails with `WinnerChosen` |
| Lifecycle.RevealCanBeRetried | programs/token-lottery/src/lib.rs:336-337 | after `RandomnessNotResolved`, the same call at the same or a later slot succeeds once the oracle resolves, drawing from the value's first byte |
| Lifecycle.ClaimNameCheckSelectsWinner | programs/token-lottery/src/lib.rs:364-371 | for any minted ticket with a NUL-padded name, the name check passes exactly when its id is the winning id |
| Lifecycle.RepeatClaimPaysNothing | programs/token-lottery/src/lib.rs:390-395 | a claim that succeeds right after a successful claim pays 0 and leaves the record unchanged |
| Lifecycle.SaleOutlivesClaimAtEndSlot | programs/token-lottery/src/lib.rs:166-170 | at slot `lottery_end`, after a reveal and a claim, a purchase still succeeds and refills the pot with the price |
| TokenLotteryProgram.TokenLottery.InitializeConfig | programs/token-lottery/src/lib.rs:40-52 | the new account holds the given window and price, the payer as authority, the default handle, zero counters, no winner and winning id 0; the invariant holds with empty logs |
| TokenLotteryProgram.TokenLottery.BuyTicket | programs/token-lottery/src/lib.rs:162-293 | performs the guard-then-assign steps of the handler, writing the pot before the mint calls; an error leaves the object unchanged; the result and new state are those of `LotteryRules.BuyTicket`; the ticket id is the old counter and the ticket is appended to the log |
| TokenLotteryProgram.TokenLottery.CommitWinner | programs/token-lottery/src/lib.rs:295-313 | an error leaves the object unchanged; otherwise the new state is that of `LotteryRules.CommitWinner` |
| TokenLotteryProgram.TokenLottery.RevealWinner | programs/token-lottery/src/lib.rs:315-351 | an error leaves the object unchanged; otherwise the new state is that of `LotteryRules.RevealWinner`, and the returned id is below `total_tickets` and recorded as the winner |
| TokenLotteryProgram.TokenLottery.ClaimPrize | programs/token-lottery/src/lib.rs:353-398 | an error leaves the object unchanged; otherwise the new state is that of `LotteryRules.ClaimPrize`, the old pot is returned and logged as a payout, and the pot is 0 |

## Left out

- `initialize_lottery` (lib.rs:54-160) is left out. It only calls the token and metadata programs to create the collection mint, its metadata and master edition, and to sign it.
- The cross-program calls in `buy_ticket` and `claim_prize` are not modelled. These are the System Program transfers and `mint_to`, `create_metadata_accounts_v3`, `create_master_edition_v3` and `set_and_verify_sized_collection_item`. Each handler takes a boolean per step instead: the payment, the four mint calls together, and the payout. A false step aborts the handler.
- Switchboard's `RandomnessAccountData::parse` and `get_value` are foreign code. Their results are an input: whether the account parses, its seed slot, and the value at the current slot if resolved.
- Anchor's account constraints and PDA derivation are left out, except for the mint seed equal to `total_tickets`. In particular, the claim's `metadata`, `destination` and `collection_mint` accounts are free inputs, and the model checks them exactly as the handler's own code does.
- The `bump` field and its bookkeeping are left out; the model never reads them.
- `Clock::get` failures and `msg!` logging are left out.
- Concurrency is left out. The runtime serialises transactions that write the same account, so the model is sequential.
- u64 overflow is modelled as an abort with no state change. This assumes the release profile has overflow checks on, as Anchor's workspace template sets; the workspace `Cargo.toml` is not part of this model.
