# StellarCade game contracts, modelled in Dafny

This project models the game-logic core of six StellarCade Soroban contracts and proves properties of the model.

- **Price prediction** (`price_prediction.dfy`, module `PricePrediction`, class `Market`) is the centre of the model: a pari-mutuel Up/Down market.
  - The admin opens a round priced by an oracle.
  - Players escrow one wager each before the close time.
  - Settlement classifies the move, voids one-sided or flat rounds (a "push"), takes a basis-point house fee once from the whole pool, and freezes the winning side's total.
  - Each bet is claimed once, for a refund in a push or a floored proportional share of the net pool on the winning side.
- **Referral system** (`referral.dfy`, module `Referral`, class `Referrals`): once-only registration of a referrer, a no-self-referral rule, basis-point reward accrual to the referrer, and a claim that zeroes the pending balance.
- **Color prediction** (`color_prediction.dfy`, module `ColorPrediction`, class `ColorGame`):
  - a game is created by its first prediction and holds at most 500 players, each with one prediction on one of four colors;
  - resolution counts the players who picked the winning color in a loop.
- **Speed trivia** (`speed_trivia.dfy`, module `SpeedTrivia`, class `Trivia`):
  - a deadline-gated question with a SHA-256 answer commitment and a reward reserved in a prize pool;
  - winners are the correct submissions, and the payout per winner is the reward divided by the number of winners;
  - each winner claims once.
- **Higher-lower** (`higher_lower.dfy`, module `HigherLower`, class `Game`): a double-or-nothing bet on an RNG outcome against the anchor value 50, escrowed and paid through a balance ledger.
- **Shared fee helper** (`shared.dfy`, module `Shared`): `calculate_fee`.
- `common.dfy` (module `Common`) holds the building blocks:
  - Rust's checked `i128` arithmetic and its truncating division;
  - the `Option`/`Result` types;
  - the token/balance ledger as a map with a `Move` operation.

Every public entry point is a method on a class whose fields are the contract's storage maps.

- **Errors and atomicity.** Each method checks the source's guards in the source's order, with the source's error codes. Soroban reverts the whole call when a contract returns an error, so every method is atomic: an `Err` result leaves all state unchanged.
- **Storage invariants.** Each class keeps an invariant `Valid()`. It ties the stored counters and totals to the records they summarise:
  - round totals are the sums of the stored wagers;
  - a player count is the length of the player list;
  - a winner count is the number of correct submissions;
  - pending rewards never exceed earnings.
- **Ghost lists.** A ghost list of participants per round/game makes those sums expressible where the source keeps no list (price prediction, speed trivia).
- **External inputs.** Environment inputs become method parameters: the ledger time `now`, the oracle's price, and the RNG's readiness and result. `sha256` is a function value given to the trivia contract at construction.
- **External ledgers.** The token, balance and prize-pool contracts become map fields of the class that calls them.

## Model

| member | source | states |
|---|---|---|
| `Shared.CalculateFee` | contracts/shared/src/lib.rs:22-31 | `amount * fee_bps / 10000` rounded toward zero, characterised by its remainder bounds for both signs of the amount; a 0 rate takes nothing and a 10 000 rate takes everything |
| `Shared.FeeWithinAmount` | contracts/shared/src/lib.rs:22-31 | for `amount >= 0` and `0 <= bps <= 10000` the fee lies in `[0, amount]` |
| `Shared.FeeMonotone` | contracts/shared/src/lib.rs:29-31 | for a fixed non-negative rate the fee never decreases as the amount grows, negative amounts included |
| `Common.CheckedAdd` | contracts/price-prediction/src/lib.rs:376-379 | `checked_add` on `i128`: `None` exactly when the sum leaves the `i128` range |
| `Common.CheckedDiv` | contracts/price-prediction/src/lib.rs:468-472 | `checked_div` on `i128`: fails exactly on a zero divisor or `MIN / -1`, otherwise divides rounding toward zero |
| `Common.TruncDivBounds` | contracts/shared/src/lib.rs:29-31 | Rust's division by a positive divisor undershoots the dividend's magnitude by less than one divisor |
| `PricePrediction.Outcome` | contracts/price-prediction/src/lib.rs:382-388 | Up iff close > open, Down iff close < open, Flat iff equal |
| `PricePrediction.Settle` | contracts/price-prediction/src/lib.rs:376-412 | push iff flat, empty pool or an empty side; a push zeroes net pool and winning total; otherwise net pool = pool − pool·bps/10000 and winning total = the winning side's total; errors exactly on the overflows the checked operations detect |
| `PricePrediction.DecisiveSettlementBounds` | contracts/price-prediction/src/lib.rs:396-412 | a non-push settlement with a fee rate of at most 100 % has a positive winning total and a net pool between 0 and the pool, and outcome Up or Down |
| `PricePrediction.NetPoolBounds` | contracts/price-prediction/src/lib.rs:399-405 | with `0 <= bps <= 10000` the net pool lies in `[0, pool]` |
| `PricePrediction.SettleUpExample` | contracts/price-prediction/src/test.rs:386-392 | pool 800 (300 Up, 500 Down) at 500 bps settles Up with net pool 760 and winning total 300 |
| `PricePrediction.Share` | contracts/price-prediction/src/lib.rs:468-472 | a winner's share is the floor of `net_pool·wager / winning_total` |
| `PricePrediction.ClaimPayout` | contracts/price-prediction/src/lib.rs:463-475 | a push refunds the wager, a loser gets 0, a winner gets the floored share unless `net_pool·wager` overflows |
| `PricePrediction.ProportionalSplitExample` | contracts/price-prediction/src/test.rs:757-768 | a 950 net pool split between 300 and 200 Up wagers pays 570 and 380; the Down bet gets 0 |
| `PricePrediction.PushRefundsWholePool` | contracts/price-prediction/src/lib.rs:463-466 | in a push the refunds of all bets add up to exactly the two side totals |
| `PricePrediction.ScaledPayoutBound` | contracts/price-prediction/src/lib.rs:468-472 | scaled by the winning total, the payouts to any set of bettors are at most the net pool's share of their winning stake |
| `PricePrediction.PayoutOfBound` | contracts/price-prediction/src/lib.rs:463-475 | the same bound for a single bet |
| `PricePrediction.PayoutsWithinNetPool` | contracts/price-prediction/src/lib.rs:406-410 | when the winning total is the winning side's stake, the floored shares of all bets add up to at most the net pool |
| `PricePrediction.PlaceRefusal` | contracts/price-prediction/src/lib.rs:276-312 | the guards of `place_prediction` in order: direction, amount, minimum, maximum, round found, not settled, not closed, no bet yet; each error is returned exactly when every earlier guard passes and its own fails, and it passes iff all hold |
| `PricePrediction.SettleRefusal` | contracts/price-prediction/src/lib.rs:357-370 | `settle_round`'s guards in order: `RoundNotFound`, `AlreadySettled`, `RoundNotClosed`, each returned exactly when the earlier ones pass and its own fails; it passes iff the round exists, is unsettled and `now >= close_time` |
| `PricePrediction.BetAndSettleWindowsPartitionTime` | contracts/price-prediction/src/lib.rs:302-304 | on an unsettled round, betting is refused as closed exactly when settling passes its guards |
| `PricePrediction.Market.Init` | contracts/price-prediction/src/lib.rs:187-208 | stores the configuration once; a second call fails with `AlreadyInitialized` |
| `PricePrediction.Market.OpenMarket` | contracts/price-prediction/src/lib.rs:214-259 | fails with `InvalidCloseTime`, `RoundAlreadyExists` or `InvalidPrice` in that order; on success stores an empty, unsettled round at the oracle price |
| `PricePrediction.Market.PlacePrediction` | contracts/price-prediction/src/lib.rs:266-346 | the first failing guard is the error and nothing changes; success adds the wager to exactly the chosen side, stores one unclaimed bet and moves the wager from player to contract; the invariant keeps each side total equal to the sum of the stored wagers |
| `PricePrediction.Market.SettleRound` | contracts/price-prediction/src/lib.rs:355-427 | one-shot: after the guards it writes close price, outcome, push flag, net pool and winning total together, as `Settle` computes them |
| `PricePrediction.Market.Claim` | contracts/price-prediction/src/lib.rs:434-497 | `RoundNotFound`, `NotSettled`, `BetNotFound`, `AlreadyClaimed`, `NoPayout` on a zero payout; success sets `claimed` and moves exactly the payout to the player |
| `PricePrediction.Market.GetRound` | contracts/price-prediction/src/lib.rs:500-505 | the stored round, or `RoundNotFound` |
| `PricePrediction.Market.GetBet` | contracts/price-prediction/src/lib.rs:508-513 | the stored bet, or `BetNotFound` |
| `PricePrediction.SidesSumToWagers` | contracts/price-prediction/src/lib.rs:323-339 | every bet is on one of the two sides, so the up and down stakes of a list of bettors add up to the plain sum of their wagers |
| `PricePrediction.Market.TotalsAreStoredWagers` | contracts/price-prediction/src/lib.rs:323-339 | in every reachable state a round's `total_up` and `total_down` are the stakes stored on each side, and `total_up + total_down` is the sum of the wagers stored for it |
| `PricePrediction.Market.SettledRoundIsSolvent` | contracts/price-prediction/src/lib.rs:391-475 | for a settled round, all claims together pay the whole pool in a push and at most the net pool (itself at most the pool) otherwise |
| `Referral.CalculateReward` | contracts/referral-system/src/lib.rs:167-174 | `Overflow` exactly when `amount·bps` leaves `i128`; otherwise the product divided by 10 000, floored for non-negative amounts |
| `Referral.RewardIsPlatformFee` | contracts/referral-system/src/lib.rs:169-174 | the reward equals the shared `calculate_fee` whenever the product fits |
| `Referral.RewardWithinAmount` | contracts/referral-system/src/lib.rs:169-174 | a positive amount at a rate of at most 10 000 bps earns a reward between 0 and the amount |
| `Referral.DefaultRewardExample` | contracts/referral-system/src/lib.rs:204-208 | the default 500 bps earns 500 on 10 000 |
| `Referral.Referred` | contracts/referral-system/src/lib.rs:280-292 | a registered user's state names the new referrer and keeps its referees, pending reward, earnings and event count; a new user starts from zero |
| `Referral.Referrals.Init` | contracts/referral-system/src/lib.rs:193-218 | stores admin and reward contract once with the default 500 bps; a second call fails with `AlreadyInitialized` |
| `Referral.Referrals.AdminCheck` | contracts/referral-system/src/lib.rs:125-131 | passes iff the caller is the stored admin; `NotInitialized` without one, `NotAuthorized` for anyone else |
| `Referral.Referrals.SetRewardBps` | contracts/referral-system/src/lib.rs:225-232 | admin only; `bps > 10000` fails with `InvalidAmount`; success stores the rate |
| `Referral.Referrals.SetRewardContract` | contracts/referral-system/src/lib.rs:235-245 | admin only; success stores the new reward contract |
| `Referral.Referrals.RegisterReferrer` | contracts/referral-system/src/lib.rs:256-308 | `SelfReferral`, then `AlreadyReferred`; success records the referrer, sets the user's `referrer`, appends the user to the referrer's referees and keeps the user's other fields |
| `Referral.Referrals.RecordReferralEvent` | contracts/referral-system/src/lib.rs:321-379 | admin only; `InvalidAmount` for `amount <= 0`, `ReferrerNotRegistered` without a referrer; success raises the referrer's pending reward and earnings by the same reward and the event count by one |
| `Referral.Referrals.ClaimReferralReward` | contracts/referral-system/src/lib.rs:391-410 | `NoPendingRewards` when pending `<= 0`; success returns the pending amount, zeroes it and keeps `total_earned` |
| `Referral.Referrals.GetReferralState` | contracts/referral-system/src/lib.rs:417-420 | the stored state, or `ReferrerNotRegistered` |
| `Referral.Referrals.GetReferrer` | contracts/referral-system/src/lib.rs:423-425 | the stored referrer, if any |
| `Referral.Referrals.PendingWithinEarned` | contracts/referral-system/src/lib.rs:281-287 | in every reachable state `0 <= pending_reward <= total_earned`, and earnings are what was claimed plus what is pending |
| `Referral.Referrals.RefereeListed` | contracts/referral-system/src/lib.rs:262-303 | a referred user never refers themself and is listed among their referrer's referees |
| `ColorPrediction.CountWinners` | contracts/color-prediction/src/lib.rs:329-343 | the number of listed players whose stored color is the given one, never more than the list |
| `ColorPrediction.ColorCountsPartitionPlayers` | contracts/color-prediction/src/lib.rs:52-56 | when every listed player holds a valid prediction, the winner counts of the four colors add up to the number of players |
| `ColorPrediction.PotAtLeastPlayers` | contracts/color-prediction/src/lib.rs:228-233 | since each wager is positive, a pot summed over valid predictions is at least the number of players |
| `ColorPrediction.ColorGame.Init` | contracts/color-prediction/src/lib.rs:179-204 | stores the configuration once; a second call fails with `AlreadyInitialized` |
| `ColorPrediction.ColorGame.PlacePrediction` | contracts/color-prediction/src/lib.rs:218-290 | `InvalidColor`, `InvalidAmount`, `GameAlreadyResolved`, `GameFull` at 500 players, `AlreadyPredicted`, then `Overflow` on the pot; success creates the game on first use and stores the entry, appends the player, adds the wager to the pot and one to the player count |
| `ColorPrediction.ColorGame.ResolvePrediction` | contracts/color-prediction/src/lib.rs:305-362 | `InvalidColor`, `GameNotFound`, `GameAlreadyResolved`; success resolves with the color and the loop's winner count (proved equal to `CountWinners`), keeping pot and player count |
| `ColorPrediction.ColorGame.GetGame` | contracts/color-prediction/src/lib.rs:369-371 | the stored game, if any |
| `ColorPrediction.ColorGame.GameTotals` | contracts/color-prediction/src/lib.rs:262-277 | in every reachable state the pot is the sum of the stored wagers, the player count is at most 500 and at most the pot, and the winner count is at most the player count |
| `SpeedTrivia.PayoutPerWinner` | contracts/speed-trivia/src/lib.rs:296-303 | 0 without winners, otherwise the reward divided by the winners rounding toward zero: `p·w <= reward < p·w + w` |
| `SpeedTrivia.PayoutWithinReward` | contracts/speed-trivia/src/lib.rs:296-303 | the payouts to all winners never exceed the reward, and a reward smaller than the winner count pays 0 each |
| `SpeedTrivia.ThreeWayExample` | contracts/speed-trivia/src/lib.rs:296-303 | 1 000 shared by three winners pays 333 each |
| `SpeedTrivia.CountCorrect` | contracts/speed-trivia/src/lib.rs:250-259 | the number of correct submissions among the listed players |
| `SpeedTrivia.ClaimedWithinCorrect` | contracts/speed-trivia/src/lib.rs:350-352 | since only correct submissions are claimed, claims never outnumber winners |
| `SpeedTrivia.ClaimAddsOne` | contracts/speed-trivia/src/lib.rs:377-378 | claiming one unclaimed submission adds exactly one claim and changes no correct count |
| `SpeedTrivia.SubmitRefusal` | contracts/speed-trivia/src/lib.rs:222-248 | the guards of `submit_answer` in order: round found, open, not past the deadline, timestamp not in the future, no earlier submission |
| `SpeedTrivia.Judged` | contracts/speed-trivia/src/lib.rs:250-259 | judging a submission raises the winner count by one exactly when it is correct and changes nothing else |
| `SpeedTrivia.Trivia.Init` | contracts/speed-trivia/src/lib.rs:145-163 | stores the configuration once; a second call fails with `AlreadyInitialized` |
| `SpeedTrivia.Trivia.OpenQuestion` | contracts/speed-trivia/src/lib.rs:167-209 | `InvalidAmount` for `reward <= 0`, `InvalidDeadline` for `deadline <= now`, `RoundAlreadyExists`; success reserves the reward in the pool and stores an open round with no winners and payout 0 |
| `SpeedTrivia.Trivia.SubmitAnswer` | contracts/speed-trivia/src/lib.rs:213-277 | the first failing guard is the error; a submission is correct iff `sha256(answer)` equals the commitment, and only a correct one raises `winner_count`, by exactly one (`Overflow` past `u32`) |
| `SpeedTrivia.Trivia.FinalizeRound` | contracts/speed-trivia/src/lib.rs:280-322 | `RoundClosed` unless open; success finalizes with the payout per winner, releases the whole reward when nobody won, and `payout·winners <= reward` |
| `SpeedTrivia.Trivia.ClaimReward` | contracts/speed-trivia/src/lib.rs:325-387 | `RoundNotOpen`, `NoRewardAvailable`, `AlreadyClaimed`, `NoRewardAvailable`; success returns the payout, sets `claimed`, has the pool pay it and the balance ledger move it to the player |
| `SpeedTrivia.Trivia.GetRound` | contracts/speed-trivia/src/lib.rs:390-392 | the stored round, if any |
| `SpeedTrivia.Trivia.PoolNeverOverdrawn` | contracts/speed-trivia/src/lib.rs:189-357 | in every reachable state, what the pool paid winners plus what it released for a round is at most the reward it reserved |
| `SpeedTrivia.Trivia.WinnersAreCorrectSubmissions` | contracts/speed-trivia/src/lib.rs:250-259 | in every reachable state a round's winner count is its number of correct submissions and bounds its claims |
| `HigherLower.ParsePrediction` | contracts/higher-lower/src/lib.rs:285-291 | accepts exactly 0 and 1, as Higher and Lower; everything else is `InvalidPrediction` |
| `HigherLower.ParseCodeRoundTrip` | contracts/higher-lower/src/lib.rs:64-68 | parsing a prediction's code gives the prediction back |
| `HigherLower.RequireWagerBounds` | contracts/higher-lower/src/lib.rs:278-283 | accepts exactly the wagers in `[1, 1_000_000_000]`, otherwise `InvalidWager` |
| `HigherLower.AnchorSplitsOutcomes` | contracts/higher-lower/src/lib.rs:219-222 | an outcome of 50 loses for both predictions; any other outcome wins for exactly one |
| `HigherLower.PayoutInRange` | contracts/higher-lower/src/lib.rs:224-228 | for a wager within bounds the payout is positive exactly on a win, at most `2·10^9`, and fits `i128` |
| `HigherLower.WinExample` | contracts/higher-lower/src/lib.rs:429-445 | balances 1 000 and 5 000, a 100 wager on Higher and outcome 80 leave the player 1 100 and the house 4 900 |
| `HigherLower.Game.Init` | contracts/higher-lower/src/lib.rs:123-145 | stores the configuration once; a second call fails with `AlreadyInitialized` |
| `HigherLower.Game.PlacePrediction` | contracts/higher-lower/src/lib.rs:147-197 | `InvalidPrediction`, `InvalidWager`, `GameAlreadyExists`, `InsufficientBalance`; success moves the wager from player to house and stores an unresolved game |
| `HigherLower.Game.ResolveGame` | contracts/higher-lower/src/lib.rs:199-260 | `GameNotFound`, `AlreadyResolved`, `RngNotReady`, `HouseInsufficientFunds`; success records outcome, win and payout and moves exactly the payout from house to player |
| `HigherLower.Game.GetGame` | contracts/higher-lower/src/lib.rs:262-264 | the stored game, if any |
| `HigherLower.Game.ResolvedGameIsDoubleOrNothing` | contracts/higher-lower/src/lib.rs:219-249 | a resolved game won iff its outcome beat 50 in the predicted direction, and paid twice the wager on a win and nothing otherwise |

## Left out

- Authorization (`require_auth`) is not modelled; every call is taken as properly signed. The admin-equality check of the referral contract is kept (`NotAuthorized`).
- Events (`publish`), TTL extension and the instance/persistent storage split have no effect on the logic and are not modelled.
- External contracts are modelled only through the values they return (their failure is covered below):
  - the oracle price, the ledger time and the RNG's readiness and result are parameters;
  - `sha256` is an arbitrary function;
  - the token and balance contracts are a balance map;
  - the prize pool is a per-round record of what was reserved, released and paid.
- PricePrediction.Market.PlacePrediction and PricePrediction.Market.Claim return an extra `TransferFailed` error where the token contract would trap on an overdrawn or negative transfer; the whole call reverts, so no state changes.
- Calls to other contracts other than the token transfer are assumed to return normally, never to trap; a trap there would revert the whole call, which these methods do not model:
  - PricePrediction.Market.OpenMarket and PricePrediction.Market.SettleRound assume the oracle's `get_price` returns (contracts/price-prediction/src/lib.rs:234 and 374);
  - HigherLower.Game.ResolveGame assumes the RNG's `get_result` returns once `is_ready` holds (contracts/higher-lower/src/lib.rs:218);
  - SpeedTrivia.Trivia.OpenQuestion, SpeedTrivia.Trivia.FinalizeRound and SpeedTrivia.Trivia.ClaimReward assume the prize pool's `reserve`, `release` and `payout` succeed (contracts/speed-trivia/src/lib.rs:189, 308 and 357).
- Shared.CalculateFee: requires `amount * fee_bps` to fit an `i128`; the source's multiplication is unchecked, so an overflowing product (a panic in debug builds, a wrap-around in release builds) is not modelled.
- The balance contract's `debit`/`credit` in speed trivia and higher-lower are modelled as never refusing. Their code is not part of this model, and higher-lower checks balances itself before calling them.
- The color-prediction contract moves no tokens: the wager transfer and the prize distribution are TODOs in the source, so the model has no balance ledger there.
- Checked operations that the invariants make unreachable are omitted from the method bodies, each with a comment:
  - color prediction's `u32` `player_count` (capped at 500) and `winner_count` (at most the player count);
  - higher-lower's `wager.checked_mul(2)` (the wager is at most 10^9, see `PayoutInRange`);
  - speed trivia's `checked_div` by a positive winner count.
- PricePrediction.Market.SettledRoundIsSolvent assumes `0 <= house_edge_bps <= 10000`, because `init` stores the fee rate, `min_wager` and `max_wager` without validating them.
- Speed trivia: the remainder of an uneven split, and a whole reward smaller than the number of winners (`PayoutWithinReward` shows each winner then gets 0), is never released to the pool. The model records this as the source does.
- Views outside the named core (`get_reward_contract` and `get_reward_bps` of the referral contract) are not modelled.
- Integer widths: `u32`/`u64` identifiers and times are `nat`. The `u32` and `u64` counters whose overflow the source checks (`winner_count` in speed trivia, `event_count` in referral) are bounded explicitly.
