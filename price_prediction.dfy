/** The pari-mutuel price-prediction engine (contracts/price-prediction):
    a round registry keyed by round id, a wager ledger keyed by
    (round id, player), one-shot settlement against an oracle price, and a
    pull-based claim that pays each bet at most once. */
module PricePrediction {
  import opened Common

  const BASIS_POINTS_DIVISOR: int := 10_000

  const DIRECTION_UP: int := 0
  const DIRECTION_DOWN: int := 1

  const OUTCOME_UP: int := 0
  const OUTCOME_DOWN: int := 1
  const OUTCOME_FLAT: int := 2

  /** A `u64` round identifier. */
  type RoundId = nat
  /** The asset symbol handed to the oracle; opaque to the engine. */
  type Symbol = string

  datatype Error =
    | AlreadyInitialized
    | NotInitialized
    | NotAuthorized
    | InvalidAmount
    | InvalidDirection
    | RoundAlreadyExists
    | RoundNotFound
    | AlreadySettled
    | NotSettled
    | RoundNotClosed
    | RoundClosed
    | BetAlreadyPlaced
    | BetNotFound
    | AlreadyClaimed
    | NoPayout
    | WagerTooLow
    | WagerTooHigh
    | Overflow
    | InvalidCloseTime
    | InvalidPrice
      /** Not a contract error code: the token contract traps (insufficient
          balance or negative amount) and the whole call is reverted. */
    | TransferFailed

  /** Instance configuration written once by `init`; `houseEdgeBps`,
      `minWager` and `maxWager` are stored without validation. */
  datatype Config = Config(
    admin: Address,
    oracle: Address,
    token: Address,
    minWager: int,
    maxWager: int,
    houseEdgeBps: int)

  datatype RoundData = RoundData(
    asset: Symbol,
    openPrice: int,
    closePrice: int,
    closeTime: nat,
    totalUp: int,
    totalDown: int,
    settled: bool,
    outcome: int,
    isPush: bool,
    netPool: int,
    winningTotal: int)

  datatype BetKey = BetKey(roundId: RoundId, player: Address)

  datatype BetData = BetData(direction: int, wager: int, claimed: bool)

  /** The four values settlement freezes into a round. */
  datatype Settlement = Settlement(outcome: int, isPush: bool, netPool: int, winningTotal: int)

  // ---------------------------------------------------------------------
  // Settlement arithmetic
  // ---------------------------------------------------------------------

  /** Classifies the market move from the opening to the closing price. */
  function Outcome(openPrice: int, closePrice: int): (outcome: int)
    ensures outcome == OUTCOME_UP <==> closePrice > openPrice
    ensures outcome == OUTCOME_DOWN <==> closePrice < openPrice
    ensures outcome == OUTCOME_FLAT <==> closePrice == openPrice
  {
    if closePrice > openPrice then OUTCOME_UP
    else if closePrice < openPrice then OUTCOME_DOWN
    else OUTCOME_FLAT
  }

  /** A round is voided when the market was flat, nobody bet, or only one side bet. */
  predicate IsPush(outcome: int, totalPool: int, totalUp: int, totalDown: int) {
    outcome == OUTCOME_FLAT || totalPool == 0 || totalUp == 0 || totalDown == 0
  }

  /** The pool left for winners once the house fee is taken, once, from the whole pool. */
  function NetPool(totalPool: int, houseEdgeBps: int): int {
    totalPool - TruncDiv(totalPool * houseEdgeBps, BASIS_POINTS_DIVISOR)
  }

  /** The computation `settle_round` performs after its guards, with every
      checked operation that can fail reported as `Overflow`. */
  function Settle(openPrice: int, closePrice: int, totalUp: int, totalDown: int, houseEdgeBps: int): (r: Result<Settlement, Error>)
    requires InI128(totalUp) && InI128(totalDown)
    ensures r.Err? ==> r.error == Overflow
    ensures r.Ok? ==> r.value.outcome == Outcome(openPrice, closePrice)
    ensures r.Ok? ==> (r.value.isPush <==>
      closePrice == openPrice || totalUp + totalDown == 0 || totalUp == 0 || totalDown == 0)
    ensures r.Ok? && r.value.isPush ==> r.value.netPool == 0 && r.value.winningTotal == 0
    ensures r.Ok? && !r.value.isPush ==>
      && r.value.netPool == NetPool(totalUp + totalDown, houseEdgeBps)
      && r.value.winningTotal == (if closePrice > openPrice then totalUp else totalDown)
    ensures 0 <= totalUp && 0 <= totalDown && 0 <= houseEdgeBps <= BASIS_POINTS_DIVISOR ==>
      (r.Err? <==> !InI128(totalUp + totalDown) ||
                   (!IsPush(Outcome(openPrice, closePrice), totalUp + totalDown, totalUp, totalDown) &&
                    !InI128((totalUp + totalDown) * houseEdgeBps)))
  {
    match CheckedAdd(totalUp, totalDown)
    case None => Err(Overflow)
    case Some(totalPool) =>
      var outcome := Outcome(openPrice, closePrice);
      if IsPush(outcome, totalPool, totalUp, totalDown) then
        Ok(Settlement(outcome, true, 0, 0))
      else
        match CheckedMul(totalPool, houseEdgeBps)
        case None => Err(Overflow)
        case Some(scaled) =>
          var fee := TruncDiv(scaled, BASIS_POINTS_DIVISOR);
          match CheckedSub(totalPool, fee)
          case None => Err(Overflow)
          case Some(net) =>
            Ok(Settlement(outcome, false, net, if outcome == OUTCOME_UP then totalUp else totalDown))
  }

  /** With a fee rate of at most 100 %, a decisive settlement pays a positive
      winning side out of a net pool between nothing and the whole pool. */
  lemma DecisiveSettlementBounds(openPrice: int, closePrice: int, totalUp: int, totalDown: int, houseEdgeBps: int)
    requires 0 <= totalUp && 0 <= totalDown && InI128(totalUp) && InI128(totalDown)
    requires 0 <= houseEdgeBps <= BASIS_POINTS_DIVISOR
    requires Settle(openPrice, closePrice, totalUp, totalDown, houseEdgeBps).Ok?
    requires !Settle(openPrice, closePrice, totalUp, totalDown, houseEdgeBps).value.isPush
    ensures var s := Settle(openPrice, closePrice, totalUp, totalDown, houseEdgeBps).value;
      && 0 < s.winningTotal <= totalUp + totalDown
      && 0 <= s.netPool <= totalUp + totalDown
      && (s.outcome == OUTCOME_UP || s.outcome == OUTCOME_DOWN)
  {
    NetPoolBounds(totalUp + totalDown, houseEdgeBps);
  }

  lemma NetPoolBounds(totalPool: int, houseEdgeBps: int)
    requires 0 <= totalPool && 0 <= houseEdgeBps <= BASIS_POINTS_DIVISOR
    ensures 0 <= NetPool(totalPool, houseEdgeBps) <= totalPool
  {
    MulNonNegative(totalPool, houseEdgeBps);
    MulMonotone(totalPool, houseEdgeBps, BASIS_POINTS_DIVISOR);
    TruncDivBounds(totalPool * houseEdgeBps, BASIS_POINTS_DIVISOR);
  }

  /** Scenario from the test suite: Up wins 800 at 500 bps, net pool 760. */
  lemma SettleUpExample()
    ensures Settle(50_000, 55_000, 300, 500, 500) == Ok(Settlement(OUTCOME_UP, false, 760, 300))
  {
  }

  // ---------------------------------------------------------------------
  // Claim arithmetic
  // ---------------------------------------------------------------------

  /** A winner's floored proportional share of the net pool. */
  function Share(netPool: int, wager: int, winningTotal: int): (s: int)
    requires 0 <= netPool && 0 <= wager && 0 < winningTotal
    ensures 0 <= s
    ensures s * winningTotal <= netPool * wager < s * winningTotal + winningTotal
  {
    var scaled := netPool * wager;
    assert scaled == (scaled / winningTotal) * winningTotal + scaled % winningTotal;
    scaled / winningTotal
  }

  /** What `claim` pays for `bet` in a settled round, before its zero-payout check. */
  function ClaimPayout(round: RoundData, bet: BetData): (r: Result<int, Error>)
    ensures round.isPush ==> r == Ok(bet.wager)
    ensures !round.isPush && bet.direction != round.outcome ==> r == Ok(0)
    ensures r.Err? ==> r.error == Overflow
    ensures !round.isPush && bet.direction == round.outcome &&
            0 <= round.netPool && 0 <= bet.wager && 0 < round.winningTotal ==>
      (r.Ok? <==> InI128(round.netPool * bet.wager)) &&
      (r.Ok? ==> r.value == Share(round.netPool, bet.wager, round.winningTotal))
  {
    if round.isPush then
      Ok(bet.wager)
    else if bet.direction == round.outcome then
      match CheckedMul(round.netPool, bet.wager)
      case None => Err(Overflow)
      case Some(scaled) =>
        match CheckedDiv(scaled, round.winningTotal)
        case None => Err(Overflow)
        case Some(payout) => Ok(payout)
    else
      Ok(0)
  }

  /** Scenario from the test suite: a 950 net pool split 300 : 200 pays 570 and 380. */
  lemma ProportionalSplitExample()
    ensures var round := RoundData("BTC", 50_000, 55_000, 2_000, 500, 500, true, OUTCOME_UP, false, 950, 500);
      && ClaimPayout(round, BetData(DIRECTION_UP, 300, false)) == Ok(570)
      && ClaimPayout(round, BetData(DIRECTION_UP, 200, false)) == Ok(380)
      && ClaimPayout(round, BetData(DIRECTION_DOWN, 500, false)) == Ok(0)
  {
  }

  // ---------------------------------------------------------------------
  // Sums over the bettors of one round
  // ---------------------------------------------------------------------

  predicate ValidBet(bet: BetData) {
    (bet.direction == DIRECTION_UP || bet.direction == DIRECTION_DOWN) && 0 < bet.wager && InI128(bet.wager)
  }

  /** The wager stored under `k` if it was placed on side `direction`, else 0. */
  function Stake(bets: map<BetKey, BetData>, k: BetKey, direction: int): int {
    if k in bets && bets[k].direction == direction then bets[k].wager else 0
  }

  /** Total stake of the players `ps` on side `direction` of round `id`. */
  function SideTotal(bets: map<BetKey, BetData>, id: RoundId, ps: seq<Address>, direction: int): int {
    if ps == [] then 0
    else SideTotal(bets, id, ps[..|ps| - 1], direction) + Stake(bets, BetKey(id, ps[|ps| - 1]), direction)
  }

  /** The sum of the wagers stored for the players `ps` in round `id`. */
  function SumWagers(bets: map<BetKey, BetData>, id: RoundId, ps: seq<Address>): int {
    if ps == [] then 0
    else
      var k := BetKey(id, ps[|ps| - 1]);
      SumWagers(bets, id, ps[..|ps| - 1]) + (if k in bets then bets[k].wager else 0)
  }

  /** Every stored bet is on one of the two sides, so the side totals
      together are the sum of the wagers. */
  lemma {:induction false} SidesSumToWagers(bets: map<BetKey, BetData>, id: RoundId, ps: seq<Address>)
    requires forall p :: p in ps ==> BetKey(id, p) in bets && ValidBet(bets[BetKey(id, p)])
    ensures SideTotal(bets, id, ps, DIRECTION_UP) + SideTotal(bets, id, ps, DIRECTION_DOWN) == SumWagers(bets, id, ps)
  {
    if ps != [] {
      SidesSumToWagers(bets, id, ps[..|ps| - 1]);
    }
  }

  /** What claiming bet `k` would pay; 0 when the claim would fail. */
  function PayoutOf(round: RoundData, bets: map<BetKey, BetData>, k: BetKey): int {
    if k in bets && ClaimPayout(round, bets[k]).Ok? then ClaimPayout(round, bets[k]).value else 0
  }

  /** What the players `ps` of round `id` could be paid, in total, by their claims. */
  function TotalPayout(round: RoundData, bets: map<BetKey, BetData>, id: RoundId, ps: seq<Address>): int {
    if ps == [] then 0
    else TotalPayout(round, bets, id, ps[..|ps| - 1]) + PayoutOf(round, bets, BetKey(id, ps[|ps| - 1]))
  }

  /** Side totals only depend on the stakes of the players summed over. */
  lemma {:induction false} SideTotalFrame(b1: map<BetKey, BetData>, b2: map<BetKey, BetData>, id: RoundId, ps: seq<Address>, direction: int)
    requires forall p :: p in ps ==> Stake(b1, BetKey(id, p), direction) == Stake(b2, BetKey(id, p), direction)
    ensures SideTotal(b1, id, ps, direction) == SideTotal(b2, id, ps, direction)
  {
    if ps != [] {
      SideTotalFrame(b1, b2, id, ps[..|ps| - 1], direction);
    }
  }

  lemma {:induction false} SideTotalNonNegative(bets: map<BetKey, BetData>, id: RoundId, ps: seq<Address>, direction: int)
    requires forall p :: p in ps ==> BetKey(id, p) in bets && ValidBet(bets[BetKey(id, p)])
    ensures 0 <= SideTotal(bets, id, ps, direction)
  {
    if ps != [] {
      SideTotalNonNegative(bets, id, ps[..|ps| - 1], direction);
    }
  }

  /** In a push every bet is refunded in full: the refunds add up to exactly
      the two side totals, with no fee withheld. */
  lemma {:induction false} PushRefundsWholePool(round: RoundData, bets: map<BetKey, BetData>, id: RoundId, ps: seq<Address>)
    requires round.isPush
    requires forall p :: p in ps ==> BetKey(id, p) in bets && ValidBet(bets[BetKey(id, p)])
    ensures TotalPayout(round, bets, id, ps) == SideTotal(bets, id, ps, DIRECTION_UP) + SideTotal(bets, id, ps, DIRECTION_DOWN)
  {
    if ps != [] {
      PushRefundsWholePool(round, bets, id, ps[..|ps| - 1]);
    }
  }

  /** Scaled by the winning total, the payouts to `ps` never exceed the net
      pool's share of their winning stake. */
  lemma {:induction false} ScaledPayoutBound(round: RoundData, bets: map<BetKey, BetData>, id: RoundId, ps: seq<Address>)
    requires !round.isPush && 0 <= round.netPool && 0 < round.winningTotal
    requires forall p :: p in ps ==> BetKey(id, p) in bets && ValidBet(bets[BetKey(id, p)])
    ensures 0 <= TotalPayout(round, bets, id, ps)
    ensures round.winningTotal * TotalPayout(round, bets, id, ps) <= round.netPool * SideTotal(bets, id, ps, round.outcome)
  {
    if ps != [] {
      var init, k := ps[..|ps| - 1], BetKey(id, ps[|ps| - 1]);
      ScaledPayoutBound(round, bets, id, init);
      var w, net := round.winningTotal, round.netPool;
      var t, s := TotalPayout(round, bets, id, init), SideTotal(bets, id, init, round.outcome);
      var pay, stake := PayoutOf(round, bets, k), Stake(bets, k, round.outcome);
      PayoutOfBound(round, bets, k);
      ScaledSum(w, t, pay, net, s, stake);
    }
  }

  /** One bet's payout, scaled by the winning total, is at most the net pool's
      share of its winning stake. */
  lemma PayoutOfBound(round: RoundData, bets: map<BetKey, BetData>, k: BetKey)
    requires !round.isPush && 0 <= round.netPool && 0 < round.winningTotal
    requires k in bets && ValidBet(bets[k])
    ensures 0 <= PayoutOf(round, bets, k)
    ensures round.winningTotal * PayoutOf(round, bets, k) <= round.netPool * Stake(bets, k, round.outcome)
  {
    var bet := bets[k];
    if bet.direction == round.outcome {
      var r := ClaimPayout(round, bet);
      if r.Ok? {
        assert r.value == Share(round.netPool, bet.wager, round.winningTotal);
      }
      assert 0 <= round.netPool * bet.wager;
    }
  }

  /** No overpayment: when the winning total is the stake of the winning side,
      the floored shares of all bets add up to at most the net pool. */
  lemma PayoutsWithinNetPool(round: RoundData, bets: map<BetKey, BetData>, id: RoundId, ps: seq<Address>)
    requires !round.isPush && 0 <= round.netPool
    requires round.winningTotal == SideTotal(bets, id, ps, round.outcome) > 0
    requires forall p :: p in ps ==> BetKey(id, p) in bets && ValidBet(bets[BetKey(id, p)])
    ensures 0 <= TotalPayout(round, bets, id, ps) <= round.netPool
  {
    ScaledPayoutBound(round, bets, id, ps);
    CancelPositiveFactor(round.winningTotal, TotalPayout(round, bets, id, ps), round.netPool);
  }

  // ---------------------------------------------------------------------
  // Guards
  // ---------------------------------------------------------------------

  /** The first guard of `place_prediction` that refuses the call, checked in
      the source's order; `None` when all pass. */
  function PlaceRefusal(cfg: Config, round: Option<RoundData>, hasBet: bool, direction: int, wager: int, now: nat): (e: Option<Error>)
    ensures e.None? <==>
      && (direction == DIRECTION_UP || direction == DIRECTION_DOWN)
      && 0 < wager && cfg.minWager <= wager <= cfg.maxWager
      && round.Some? && !round.value.settled && now < round.value.closeTime
      && !hasBet
    ensures direction != DIRECTION_UP && direction != DIRECTION_DOWN ==> e == Some(InvalidDirection)
    ensures (direction == DIRECTION_UP || direction == DIRECTION_DOWN) ==>
      && (wager <= 0 ==> e == Some(InvalidAmount))
      && (0 < wager < cfg.minWager ==> e == Some(WagerTooLow))
      && (0 < wager && cfg.minWager <= wager && cfg.maxWager < wager ==> e == Some(WagerTooHigh))
      && (0 < wager && cfg.minWager <= wager <= cfg.maxWager ==>
            && (round.None? ==> e == Some(RoundNotFound))
            && (round.Some? && round.value.settled ==> e == Some(AlreadySettled))
            && (round.Some? && !round.value.settled && round.value.closeTime <= now ==> e == Some(RoundClosed))
            && (round.Some? && !round.value.settled && now < round.value.closeTime && hasBet ==> e == Some(BetAlreadyPlaced)))
  {
    if direction != DIRECTION_UP && direction != DIRECTION_DOWN then Some(InvalidDirection)
    else if wager <= 0 then Some(InvalidAmount)
    else if wager < cfg.minWager then Some(WagerTooLow)
    else if wager > cfg.maxWager then Some(WagerTooHigh)
    else if round.None? then Some(RoundNotFound)
    else if round.value.settled then Some(AlreadySettled)
    else if now >= round.value.closeTime then Some(RoundClosed)
    else if hasBet then Some(BetAlreadyPlaced)
    else None
  }

  /** The guards of `settle_round`, in order; `None` when all pass. */
  function SettleRefusal(round: Option<RoundData>, now: nat): (e: Option<Error>)
    ensures e.None? <==> round.Some? && !round.value.settled && round.value.closeTime <= now
    ensures round.None? ==> e == Some(RoundNotFound)
    ensures round.Some? && round.value.settled ==> e == Some(AlreadySettled)
    ensures round.Some? && !round.value.settled && now < round.value.closeTime ==> e == Some(RoundNotClosed)
  {
    if round.None? then Some(RoundNotFound)
    else if round.value.settled then Some(AlreadySettled)
    else if now < round.value.closeTime then Some(RoundNotClosed)
    else None
  }

  /** Betting and settling are complementary in time: on an unsettled round
      exactly one of the two time guards lets the call through. */
  lemma BetAndSettleWindowsPartitionTime(cfg: Config, round: RoundData, direction: int, wager: int, now: nat)
    requires !round.settled
    requires direction == DIRECTION_UP || direction == DIRECTION_DOWN
    requires 0 < wager && cfg.minWager <= wager <= cfg.maxWager
    ensures PlaceRefusal(cfg, Some(round), false, direction, wager, now) == Some(RoundClosed)
        <==> SettleRefusal(Some(round), now).None?
  {
  }

  /** The round after `wager` is added to the total of side `direction`. */
  function AddStake(round: RoundData, direction: int, wager: int): RoundData {
    if direction == DIRECTION_UP then round.(totalUp := round.totalUp + wager)
    else round.(totalDown := round.totalDown + wager)
  }

  /** The round after settlement froze `s` at closing price `closePrice`. */
  function Settled(round: RoundData, closePrice: int, s: Settlement): RoundData {
    round.(closePrice := closePrice, settled := true, outcome := s.outcome, isPush := s.isPush,
           netPool := s.netPool, winningTotal := s.winningTotal)
  }

  // ---------------------------------------------------------------------
  // The contract's state
  // ---------------------------------------------------------------------

  /** The stored fields a round always has in range: a positive opening
      price and two non-negative `i128` side totals. */
  predicate RoundInRange(round: RoundData) {
    && 0 < round.openPrice
    && 0 <= round.totalUp && InI128(round.totalUp)
    && 0 <= round.totalDown && InI128(round.totalDown)
  }

  /** The round's side totals are the stakes of its players `ps`, and a
      decisive settlement froze consistent values. */
  ghost predicate RoundAgrees(round: RoundData, bets: map<BetKey, BetData>, id: RoundId, ps: seq<Address>, cfg: Config) {
    && round.totalUp == SideTotal(bets, id, ps, DIRECTION_UP)
    && round.totalDown == SideTotal(bets, id, ps, DIRECTION_DOWN)
    && (round.settled && !round.isPush ==>
          && (round.outcome == OUTCOME_UP || round.outcome == OUTCOME_DOWN)
          && round.winningTotal == SideTotal(bets, id, ps, round.outcome)
          && 0 < round.totalUp && 0 < round.totalDown
          && round.netPool == NetPool(round.totalUp + round.totalDown, cfg.houseEdgeBps))
  }

  /** Every stored bet belongs to a listed bettor of its round and every
      listed bettor has a bet; nobody is listed twice. */
  ghost predicate BettorsMatchBets(bets: map<BetKey, BetData>, bettors: map<RoundId, seq<Address>>) {
    && (forall k :: k in bets ==> k.roundId in bettors && k.player in bettors[k.roundId])
    && (forall id, i :: id in bettors && 0 <= i < |bettors[id]| ==> BetKey(id, bettors[id][i]) in bets)
    && (forall id {:trigger NoDuplicates(bettors[id])} :: id in bettors ==> NoDuplicates(bettors[id]))
  }

  /** Every round agrees with its bettors' stakes. (The quantifier fires only
      where a proof names the agreement of one round.) */
  ghost predicate AllRoundsAgree(cfg: Config, rounds: map<RoundId, RoundData>, bets: map<BetKey, BetData>,
                                 bettors: map<RoundId, seq<Address>>)
    requires rounds.Keys <= bettors.Keys
  {
    forall id {:trigger RoundAgrees(rounds[id], bets, id, bettors[id], cfg)} ::
      id in rounds ==> RoundAgrees(rounds[id], bets, id, bettors[id], cfg)
  }

  /** The invariant of the contract's storage: nothing is stored before
      `init`, bets are well formed, only settled bets are claimed, and every
      round's aggregates agree with its bets. */
  ghost predicate Consistent(config: Option<Config>, rounds: map<RoundId, RoundData>, bets: map<BetKey, BetData>,
                             bettors: map<RoundId, seq<Address>>) {
    && (config.None? ==> rounds == map[] && bets == map[])
    && rounds.Keys == bettors.Keys
    && BettorsMatchBets(bets, bettors)
    && (forall k :: k in bets ==> ValidBet(bets[k]))
    && (forall k :: k in bets && bets[k].claimed ==> k.roundId in rounds && rounds[k.roundId].settled)
    && (forall id :: id in rounds ==> RoundInRange(rounds[id]))
    && (config.Some? ==> AllRoundsAgree(config.value, rounds, bets, bettors))
  }

  class Market {
    /** The contract's own address, which holds the escrow. */
    const self: Address
    var config: Option<Config>
    var rounds: map<RoundId, RoundData>
    var bets: map<BetKey, BetData>
    /** The token contract's ledger. */
    var balances: map<Address, int>
    /** For each round, the players who bet on it, in the order they bet. */
    ghost var bettors: map<RoundId, seq<Address>>

    ghost predicate Valid()
      reads this
    {
      Consistent(config, rounds, bets, bettors)
    }

    constructor (self: Address, balances: map<Address, int>)
      ensures Valid()
      ensures this.self == self && this.balances == balances
      ensures config == None && rounds == map[] && bets == map[]
    {
      this.self := self;
      this.balances := balances;
      config := None;
      rounds := map[];
      bets := map[];
      bettors := map[];
    }

    /** `init`: stores the configuration once. */
    method Init(admin: Address, oracle: Address, token: Address, minWager: int, maxWager: int, houseEdgeBps: int)
      returns (r: Result<(), Error>)
      requires Valid()
      modifies this
      ensures Valid()
      ensures old(config).Some? ==> r == Err(AlreadyInitialized) && config == old(config)
      ensures old(config).None? ==> r == Ok(()) && config == Some(Config(admin, oracle, token, minWager, maxWager, houseEdgeBps))
      ensures rounds == old(rounds) && bets == old(bets) && balances == old(balances)
    {
      if config.Some? {
        return Err(AlreadyInitialized);
      }
      config := Some(Config(admin, oracle, token, minWager, maxWager, houseEdgeBps));
      r := Ok(());
    }

    /** `open_market`: registers a new round priced by the oracle's answer `oraclePrice`. */
    method OpenMarket(roundId: RoundId, asset: Symbol, closeTime: nat, now: nat, oraclePrice: int)
      returns (r: Result<(), Error>)
      requires Valid()
      modifies this
      ensures Valid()
      ensures config == old(config) && bets == old(bets) && balances == old(balances)
      ensures old(config).None? ==> r == Err(NotInitialized)
      ensures old(config).Some? && closeTime <= now ==> r == Err(InvalidCloseTime)
      ensures old(config).Some? && now < closeTime && roundId in old(rounds) ==> r == Err(RoundAlreadyExists)
      ensures old(config).Some? && now < closeTime && roundId !in old(rounds) && oraclePrice <= 0 ==> r == Err(InvalidPrice)
      ensures r.Ok? <==> old(config).Some? && now < closeTime && roundId !in old(rounds) && 0 < oraclePrice
      ensures r.Ok? ==> rounds == old(rounds)[roundId := RoundData(asset, oraclePrice, 0, closeTime, 0, 0, false, OUTCOME_UP, false, 0, 0)]
      ensures r.Err? ==> rounds == old(rounds)
    {
      if config.None? {
        return Err(NotInitialized);
      }
      if closeTime <= now {
        return Err(InvalidCloseTime);
      }
      if roundId in rounds {
        return Err(RoundAlreadyExists);
      }
      if oraclePrice <= 0 {
        return Err(InvalidPrice);
      }
      var round := RoundData(asset, oraclePrice, 0, closeTime, 0, 0, false, OUTCOME_UP, false, 0, 0);
      OpenKeepsConsistent(config.value, rounds, bets, bettors, roundId, round);
      rounds := rounds[roundId := round];
      bettors := bettors[roundId := []];
      r := Ok(());
    }

    /** `place_prediction`: validates, escrows `wager` and records the bet. */
    method PlacePrediction(player: Address, roundId: RoundId, direction: int, wager: int, now: nat)
      returns (r: Result<(), Error>)
      requires Valid()
      requires InI128(wager)
      modifies this
      ensures Valid()
      ensures config == old(config)
      ensures old(config).None? ==> r == Err(NotInitialized)
      ensures old(config).Some? ==>
        var refusal := PlaceRefusal(old(config).value, Lookup(old(rounds), roundId), BetKey(roundId, player) in old(bets), direction, wager, now);
        && (refusal.Some? ==> r == Err(refusal.value))
        && (refusal.None? && !CanTransfer(old(balances), player, wager) ==> r == Err(TransferFailed))
        && (refusal.None? && CanTransfer(old(balances), player, wager) ==>
              var round := old(rounds)[roundId];
              var side := if direction == DIRECTION_UP then round.totalUp else round.totalDown;
              (r.Ok? <==> InI128(side + wager)) && (r.Err? ==> r == Err(Overflow)))
      ensures r.Err? ==> rounds == old(rounds) && bets == old(bets) && balances == old(balances)
      ensures r.Ok? ==>
        var round := old(rounds)[roundId];
        && bets == old(bets)[BetKey(roundId, player) := BetData(direction, wager, false)]
        && rounds == old(rounds)[roundId := AddStake(round, direction, wager)]
        && balances == Move(old(balances), player, self, wager)
    {
      if config.None? {
        return Err(NotInitialized);
      }
      var key := BetKey(roundId, player);
      var refusal := PlaceRefusal(config.value, Lookup(rounds, roundId), key in bets, direction, wager, now);
      if refusal.Some? {
        return Err(refusal.value);
      }
      if !CanTransfer(balances, player, wager) {
        return Err(TransferFailed);
      }
      var round := rounds[roundId];
      var total := CheckedAdd(if direction == DIRECTION_UP then round.totalUp else round.totalDown, wager);
      if total.None? {
        return Err(Overflow);
      }
      var bet := BetData(direction, wager, false);
      var newBets, newRounds := bets[key := bet], rounds[roundId := AddStake(round, direction, wager)];
      ghost var newBettors := bettors[roundId := bettors[roundId] + [player]];
      PlaceKeepsConsistent(config.value, rounds, bets, bettors, key, bet, newRounds, newBets, newBettors);
      balances := Move(balances, player, self, wager);
      bets, rounds, bettors := newBets, newRounds, newBettors;
      r := Ok(());
    }

    /** `settle_round`: freezes outcome, push flag, net pool and winning total
        from the oracle's closing answer `oraclePrice`. */
    method SettleRound(roundId: RoundId, now: nat, oraclePrice: int)
      returns (r: Result<(), Error>)
      requires Valid()
      modifies this
      ensures Valid()
      ensures config == old(config) && bets == old(bets) && balances == old(balances)
      ensures old(config).None? ==> r == Err(NotInitialized)
      ensures old(config).Some? && SettleRefusal(Lookup(old(rounds), roundId), now).Some? ==>
        r == Err(SettleRefusal(Lookup(old(rounds), roundId), now).value)
      ensures r.Err? ==> rounds == old(rounds)
      ensures r.Ok? ==>
        var round := old(rounds)[roundId];
        var s := Settle(round.openPrice, oraclePrice, round.totalUp, round.totalDown, old(config).value.houseEdgeBps);
        && SettleRefusal(Lookup(old(rounds), roundId), now).None?
        && s.Ok?
        && rounds == old(rounds)[roundId := Settled(round, oraclePrice, s.value)]
      ensures old(config).Some? && SettleRefusal(Lookup(old(rounds), roundId), now).None? ==>
        var round := old(rounds)[roundId];
        (r.Ok? <==> Settle(round.openPrice, oraclePrice, round.totalUp, round.totalDown, old(config).value.houseEdgeBps).Ok?)
    {
      if config.None? {
        return Err(NotInitialized);
      }
      var refusal := SettleRefusal(Lookup(rounds, roundId), now);
      if refusal.Some? {
        return Err(refusal.value);
      }
      var round := rounds[roundId];
      var s := Settle(round.openPrice, oraclePrice, round.totalUp, round.totalDown, config.value.houseEdgeBps);
      if s.Err? {
        return Err(s.error);
      }
      var settled := Settled(round, oraclePrice, s.value);
      var newRounds := rounds[roundId := settled];
      SettledRoundAgrees(config.value, round, bets, roundId, bettors[roundId], oraclePrice, s.value);
      SettleKeepsConsistent(config.value, rounds, bets, bettors, roundId, settled, newRounds);
      rounds := newRounds;
      r := Ok(());
    }

    /** `claim`: pays a settled bet once, marking it claimed before the transfer. */
    method Claim(player: Address, roundId: RoundId) returns (r: Result<(), Error>)
      requires Valid()
      modifies this
      ensures Valid()
      ensures config == old(config) && rounds == old(rounds)
      ensures old(config).None? ==> r == Err(NotInitialized)
      ensures old(config).Some? && roundId !in old(rounds) ==> r == Err(RoundNotFound)
      ensures old(config).Some? && roundId in old(rounds) && !old(rounds)[roundId].settled ==> r == Err(NotSettled)
      ensures old(config).Some? && roundId in old(rounds) && old(rounds)[roundId].settled ==>
        var key := BetKey(roundId, player);
        && (key !in old(bets) ==> r == Err(BetNotFound))
        && (key in old(bets) && old(bets)[key].claimed ==> r == Err(AlreadyClaimed))
        && (key in old(bets) && !old(bets)[key].claimed ==>
              var payout := ClaimPayout(old(rounds)[roundId], old(bets)[key]);
              && (payout.Err? ==> r == Err(Overflow))
              && (payout == Ok(0) ==> r == Err(NoPayout))
              && (payout.Ok? && payout.value != 0 && !CanTransfer(old(balances), self, payout.value) ==> r == Err(TransferFailed))
              && (r.Ok? <==> payout.Ok? && payout.value != 0 && CanTransfer(old(balances), self, payout.value)))
      ensures r.Err? ==> bets == old(bets) && balances == old(balances)
      ensures r.Ok? ==>
        var key := BetKey(roundId, player);
        var payout := ClaimPayout(old(rounds)[roundId], old(bets)[key]).value;
        && bets == old(bets)[key := old(bets)[key].(claimed := true)]
        && balances == Move(old(balances), self, player, payout)
    {
      if config.None? {
        return Err(NotInitialized);
      }
      if roundId !in rounds {
        return Err(RoundNotFound);
      }
      var round := rounds[roundId];
      if !round.settled {
        return Err(NotSettled);
      }
      var key := BetKey(roundId, player);
      if key !in bets {
        return Err(BetNotFound);
      }
      var bet := bets[key];
      if bet.claimed {
        return Err(AlreadyClaimed);
      }
      var payout := ClaimPayout(round, bet);
      if payout.Err? {
        return Err(payout.error);
      }
      if payout.value == 0 {
        return Err(NoPayout);
      }
      if !CanTransfer(balances, self, payout.value) {
        return Err(TransferFailed);
      }
      ClaimKeepsConsistent(config.value, rounds, bets, bettors, key);
      bets := bets[key := bet.(claimed := true)];
      balances := Move(balances, self, player, payout.value);
      r := Ok(());
    }

    /** `get_round`. */
    function GetRound(roundId: RoundId): (r: Result<RoundData, Error>)
      reads this
      ensures r.Err? <==> roundId !in rounds
      ensures r.Err? ==> r.error == RoundNotFound
      ensures r.Ok? ==> r.value == rounds[roundId]
    {
      if roundId in rounds then Ok(rounds[roundId]) else Err(RoundNotFound)
    }

    /** `get_bet`. */
    function GetBet(roundId: RoundId, player: Address): (r: Result<BetData, Error>)
      reads this
      ensures r.Err? <==> BetKey(roundId, player) !in bets
      ensures r.Err? ==> r.error == BetNotFound
      ensures r.Ok? ==> r.value == bets[BetKey(roundId, player)]
    {
      var key := BetKey(roundId, player);
      if key in bets then Ok(bets[key]) else Err(BetNotFound)
    }

    /** In every valid state, a round's two totals are the stakes stored on
        each side, and together the sum of the wagers stored for it. */
    lemma TotalsAreStoredWagers(roundId: RoundId)
      requires Valid() && roundId in rounds
      ensures rounds[roundId].totalUp == SideTotal(bets, roundId, bettors[roundId], DIRECTION_UP)
      ensures rounds[roundId].totalDown == SideTotal(bets, roundId, bettors[roundId], DIRECTION_DOWN)
      ensures rounds[roundId].totalUp + rounds[roundId].totalDown == SumWagers(bets, roundId, bettors[roundId])
    {
      var ps := bettors[roundId];
      assert RoundAgrees(rounds[roundId], bets, roundId, ps, config.value);
      forall p | p in ps
        ensures BetKey(roundId, p) in bets && ValidBet(bets[BetKey(roundId, p)])
      {
        var i :| 0 <= i < |ps| && ps[i] == p;
      }
      SidesSumToWagers(bets, roundId, ps);
    }

    /** Once a round is settled, its claims together can never pay out more
        than it holds: the whole pool in a push, at most the net pool
        otherwise (given a fee rate of at most 100 %). */
    lemma SettledRoundIsSolvent(roundId: RoundId)
      requires Valid() && roundId in rounds && rounds[roundId].settled
      requires 0 <= config.value.houseEdgeBps <= BASIS_POINTS_DIVISOR
      ensures var round := rounds[roundId];
        var paid := TotalPayout(round, bets, roundId, bettors[roundId]);
        && (round.isPush ==> paid == round.totalUp + round.totalDown)
        && (!round.isPush ==> 0 <= paid <= round.netPool <= round.totalUp + round.totalDown)
    {
      var ps, round := bettors[roundId], rounds[roundId];
      assert RoundAgrees(round, bets, roundId, ps, config.value);
      forall p | p in ps
        ensures BetKey(roundId, p) in bets && ValidBet(bets[BetKey(roundId, p)])
      {
        var i :| 0 <= i < |ps| && ps[i] == p;
      }
      if round.isPush {
        PushRefundsWholePool(round, bets, roundId, ps);
      } else {
        NetPoolBounds(round.totalUp + round.totalDown, config.value.houseEdgeBps);
        PayoutsWithinNetPool(round, bets, roundId, ps);
      }
    }
  }

  /** Recording a new bet for a player who had none keeps every round's
      totals in step with its (extended) list of bettors. */
  lemma PlaceKeepsTotals(bets: map<BetKey, BetData>, key: BetKey, bet: BetData, bettors: map<RoundId, seq<Address>>)
    requires key.roundId in bettors && key.player !in bettors[key.roundId]
    ensures forall id, d :: id in bettors && id != key.roundId ==>
      SideTotal(bets[key := bet], id, bettors[id], d) == SideTotal(bets, id, bettors[id], d)
    ensures forall d :: (SideTotal(bets[key := bet], key.roundId, bettors[key.roundId] + [key.player], d) ==
      SideTotal(bets, key.roundId, bettors[key.roundId], d) + (if bet.direction == d then bet.wager else 0))
  {
    var nb := bets[key := bet];
    forall id, d | id in bettors && id != key.roundId
      ensures SideTotal(nb, id, bettors[id], d) == SideTotal(bets, id, bettors[id], d)
    {
      SideTotalFrame(nb, bets, id, bettors[id], d);
    }
    var ps := bettors[key.roundId];
    forall d
      ensures SideTotal(nb, key.roundId, ps + [key.player], d) == SideTotal(bets, key.roundId, ps, d) + (if bet.direction == d then bet.wager else 0)
    {
      assert (ps + [key.player])[..|ps|] == ps;
      SideTotalFrame(nb, bets, key.roundId, ps, d);
    }
  }

  /** Flipping a bet's claimed flag changes no stake. */
  lemma ClaimKeepsTotals(bets: map<BetKey, BetData>, key: BetKey, bettors: map<RoundId, seq<Address>>)
    requires key in bets
    ensures forall id, d :: id in bettors ==>
      SideTotal(bets[key := bets[key].(claimed := true)], id, bettors[id], d) == SideTotal(bets, id, bettors[id], d)
  {
    forall id, d | id in bettors
      ensures SideTotal(bets[key := bets[key].(claimed := true)], id, bettors[id], d) == SideTotal(bets, id, bettors[id], d)
    {
      SideTotalFrame(bets[key := bets[key].(claimed := true)], bets, id, bettors[id], d);
    }
  }

  /** Registering a fresh, empty, unsettled round keeps the invariant. */
  lemma OpenKeepsConsistent(cfg: Config, rounds: map<RoundId, RoundData>, bets: map<BetKey, BetData>,
                            bettors: map<RoundId, seq<Address>>, id: RoundId, round: RoundData)
    requires Consistent(Some(cfg), rounds, bets, bettors)
    requires id !in rounds && 0 < round.openPrice && round.totalUp == 0 && round.totalDown == 0 && !round.settled
    ensures Consistent(Some(cfg), rounds[id := round], bets, bettors[id := []])
  {
    var rs, bs := rounds[id := round], bettors[id := []];
    forall k | k in bets
      ensures k.roundId in bs && k.player in bs[k.roundId]
    {
      assert k.roundId != id;
    }
    forall x | x in rs
      ensures RoundAgrees(rs[x], bets, x, bs[x], cfg)
    {
      if x != id {
        assert rs[x] == rounds[x] && bs[x] == bettors[x];
      }
    }
  }

  /** Listing a player who had no bet on the round keeps bets and bettor
      lists in step. */
  lemma PlaceKeepsBettors(bets: map<BetKey, BetData>, bettors: map<RoundId, seq<Address>>, key: BetKey, bet: BetData,
                          nb: map<BetKey, BetData>, bs: map<RoundId, seq<Address>>)
    requires BettorsMatchBets(bets, bettors) && key.roundId in bettors && key !in bets
    requires nb == bets[key := bet] && bs == bettors[key.roundId := bettors[key.roundId] + [key.player]]
    ensures key.player !in bettors[key.roundId]
    ensures BettorsMatchBets(nb, bs)
  {
    var id, ps := key.roundId, bettors[key.roundId];
    NoDuplicatesAppend(ps, key.player);
    forall k | k in nb
      ensures k.roundId in bs && k.player in bs[k.roundId]
    {
      if k != key && k.roundId == id {
        assert k.player in ps;
      }
    }
    forall x, i | x in bs && 0 <= i < |bs[x]|
      ensures BetKey(x, bs[x][i]) in nb
    {
      if x == id && i < |ps| {
        assert bs[x][i] == ps[i];
      }
    }
  }

  /** Adding a new bettor's wager to its side keeps every round's aggregates
      in step with its bettors. */
  lemma PlaceKeepsAgreement(cfg: Config, rounds: map<RoundId, RoundData>, bets: map<BetKey, BetData>,
                            bettors: map<RoundId, seq<Address>>, key: BetKey, bet: BetData,
                            rs: map<RoundId, RoundData>, nb: map<BetKey, BetData>, bs: map<RoundId, seq<Address>>)
    requires rounds.Keys == bettors.Keys
    requires AllRoundsAgree(cfg, rounds, bets, bettors)
    requires key.roundId in rounds && !rounds[key.roundId].settled && key.player !in bettors[key.roundId]
    requires ValidBet(bet)
    requires InI128(if bet.direction == DIRECTION_UP then rounds[key.roundId].totalUp + bet.wager
                    else rounds[key.roundId].totalDown + bet.wager)
    requires rs == rounds[key.roundId := AddStake(rounds[key.roundId], bet.direction, bet.wager)]
    requires nb == bets[key := bet] && bs == bettors[key.roundId := bettors[key.roundId] + [key.player]]
    ensures rs.Keys == bs.Keys && AllRoundsAgree(cfg, rs, nb, bs)
  {
    PlaceKeepsTotals(bets, key, bet, bettors);
    forall x | x in rs
      ensures RoundAgrees(rs[x], nb, x, bs[x], cfg)
    {
      assert RoundAgrees(rounds[x], bets, x, bettors[x], cfg);
      if x != key.roundId {
        assert rs[x] == rounds[x] && bs[x] == bettors[x];
      }
    }
  }

  /** Recording a first, well-formed bet on an open round, and adding its
      wager to the round's side total, keeps the invariant. */
  lemma PlaceKeepsConsistent(cfg: Config, rounds: map<RoundId, RoundData>, bets: map<BetKey, BetData>,
                             bettors: map<RoundId, seq<Address>>, key: BetKey, bet: BetData,
                             rs: map<RoundId, RoundData>, nb: map<BetKey, BetData>, bs: map<RoundId, seq<Address>>)
    requires Consistent(Some(cfg), rounds, bets, bettors)
    requires key.roundId in rounds && !rounds[key.roundId].settled && key !in bets
    requires ValidBet(bet) && !bet.claimed
    requires InI128(if bet.direction == DIRECTION_UP then rounds[key.roundId].totalUp + bet.wager
                    else rounds[key.roundId].totalDown + bet.wager)
    requires rs == rounds[key.roundId := AddStake(rounds[key.roundId], bet.direction, bet.wager)]
    requires nb == bets[key := bet] && bs == bettors[key.roundId := bettors[key.roundId] + [key.player]]
    ensures Consistent(Some(cfg), rs, nb, bs)
  {
    PlaceKeepsBettors(bets, bettors, key, bet, nb, bs);
    PlaceKeepsAgreement(cfg, rounds, bets, bettors, key, bet, rs, nb, bs);
  }

  /** A round whose totals agree with its bettors still agrees once a
      successful settlement is frozen into it. */
  lemma SettledRoundAgrees(cfg: Config, round: RoundData, bets: map<BetKey, BetData>, id: RoundId, ps: seq<Address>,
                           closePrice: int, s: Settlement)
    requires RoundAgrees(round, bets, id, ps, cfg) && RoundInRange(round) && !round.settled
    requires Settle(round.openPrice, closePrice, round.totalUp, round.totalDown, cfg.houseEdgeBps) == Ok(s)
    ensures RoundAgrees(Settled(round, closePrice, s), bets, id, ps, cfg)
  {
  }

  /** Replacing a round by a settled one that is in range and agrees with
      the same bettors keeps the invariant. */
  lemma SettleKeepsConsistent(cfg: Config, rounds: map<RoundId, RoundData>, bets: map<BetKey, BetData>,
                              bettors: map<RoundId, seq<Address>>, id: RoundId, settled: RoundData,
                              rs: map<RoundId, RoundData>)
    requires Consistent(Some(cfg), rounds, bets, bettors)
    requires id in rounds && settled.settled && RoundInRange(settled)
    requires RoundAgrees(settled, bets, id, bettors[id], cfg)
    requires rs == rounds[id := settled]
    ensures Consistent(Some(cfg), rs, bets, bettors)
  {
    forall x | x in rs
      ensures RoundAgrees(rs[x], bets, x, bettors[x], cfg)
    {
      if x != id {
        assert RoundAgrees(rounds[x], bets, x, bettors[x], cfg);
        assert rs[x] == rounds[x];
      }
    }
  }

  /** Marking a bet of a settled round claimed keeps the invariant. */
  lemma ClaimKeepsConsistent(cfg: Config, rounds: map<RoundId, RoundData>, bets: map<BetKey, BetData>,
                             bettors: map<RoundId, seq<Address>>, key: BetKey)
    requires Consistent(Some(cfg), rounds, bets, bettors)
    requires key in bets && key.roundId in rounds && rounds[key.roundId].settled
    ensures Consistent(Some(cfg), rounds, bets[key := bets[key].(claimed := true)], bettors)
  {
    var nb := bets[key := bets[key].(claimed := true)];
    ClaimKeepsTotals(bets, key, bettors);
    forall k | k in nb
      ensures k.roundId in bettors && k.player in bettors[k.roundId]
    {
      assert k in bets;
    }
    forall x | x in rounds
      ensures RoundAgrees(rounds[x], nb, x, bettors[x], cfg)
    {
      assert RoundAgrees(rounds[x], bets, x, bettors[x], cfg);
    }
  }
}
