/** The higher-or-lower game (contracts/higher-lower): a player escrows a
    wager on whether a random outcome will land above or below the anchor
    value 50; on resolution a win pays double through the balance ledger and
    a loss pays nothing. */
module HigherLower {
  import opened Common

  const MIN_WAGER: int := 1
  const MAX_WAGER: int := 1_000_000_000
  /** The outcome a prediction is measured against; landing on it loses. */
  const ANCHOR_VALUE: nat := 50

  /** A `u64` game identifier. */
  type GameId = nat

  datatype Error =
    | AlreadyInitialized
    | NotInitialized
    | NotAuthorized
    | InvalidPrediction
    | InvalidWager
    | GameAlreadyExists
    | GameNotFound
    | AlreadyResolved
    | RngNotReady
    | InsufficientBalance
    | HouseInsufficientFunds
    | Overflow

  datatype Prediction = Higher | Lower

  datatype Config = Config(admin: Address, rngContract: Address, prizePoolContract: Address, balanceContract: Address)

  /** `outcome` is the RNG's `u32` result. */
  datatype GameData = GameData(player: Address, prediction: Prediction, wager: int, resolved: bool,
                               outcome: nat, win: bool, payout: int)

  /** The `u32` discriminant a prediction travels as. */
  function Code(p: Prediction): nat {
    match p
    case Higher => 0
    case Lower => 1
  }

  /** `parse_prediction`: 0 is Higher, 1 is Lower, anything else is refused. */
  function ParsePrediction(value: nat): (r: Result<Prediction, Error>)
    ensures r.Ok? <==> value <= 1
    ensures r.Err? ==> r.error == InvalidPrediction
    ensures r.Ok? ==> Code(r.value) == value
  {
    match value
    case 0 => Ok(Higher)
    case 1 => Ok(Lower)
    case _ => Err(InvalidPrediction)
  }

  /** Every prediction survives the trip through its code. */
  lemma ParseCodeRoundTrip(p: Prediction)
    ensures ParsePrediction(Code(p)) == Ok(p)
  {
  }

  /** `require_wager_bounds`: accepts exactly the wagers in [1, 10^9]. */
  function RequireWagerBounds(wager: int): (r: Result<(), Error>)
    ensures r.Ok? <==> MIN_WAGER <= wager <= MAX_WAGER
    ensures r.Err? ==> r.error == InvalidWager
  {
    if wager < MIN_WAGER || wager > MAX_WAGER then Err(InvalidWager) else Ok(())
  }

  /** Whether `prediction` wins against the RNG's `outcome`. */
  predicate Wins(prediction: Prediction, outcome: nat) {
    match prediction
    case Higher => outcome > ANCHOR_VALUE
    case Lower => outcome < ANCHOR_VALUE
  }

  /** Away from the anchor exactly one of the two predictions wins; on the
      anchor both lose. */
  lemma AnchorSplitsOutcomes(outcome: nat)
    ensures outcome == ANCHOR_VALUE ==> !Wins(Higher, outcome) && !Wins(Lower, outcome)
    ensures outcome != ANCHOR_VALUE ==> Wins(Higher, outcome) != Wins(Lower, outcome)
  {
  }

  /** Double or nothing. */
  function Payout(wager: int, win: bool): (payout: int)
    ensures win ==> payout == wager + wager
    ensures !win ==> payout == 0
  {
    if win then wager * 2 else 0
  }

  /** A payout for a wager within bounds is never negative, is positive
      exactly on a win, and fits an `i128`, so `checked_mul(2)` never fails. */
  lemma PayoutInRange(wager: int, win: bool)
    requires RequireWagerBounds(wager).Ok?
    ensures 0 <= Payout(wager, win) <= 2 * MAX_WAGER
    ensures Payout(wager, win) > 0 <==> win
    ensures InI128(Payout(wager, win))
  {
  }

  /** The worked example of a win: from balances 1 000 (player) and 5 000
      (house), a 100 wager escrowed and then won leaves 1 100 and 4 900. */
  lemma WinExample(player: Address, house: Address)
    requires player != house
    ensures var start := map[player := 1_000, house := 5_000];
      var resolved := Move(Move(start, player, house, 100), house, player, Payout(100, Wins(Higher, 80)));
      BalanceOf(resolved, player) == 1_100 && BalanceOf(resolved, house) == 4_900
  {
  }

  /** A stored game: a wager within bounds; unresolved it carries the zero
      result, resolved it records the win and payout its outcome implies. */
  predicate WellFormed(game: GameData) {
    && RequireWagerBounds(game.wager).Ok?
    && (!game.resolved ==> game.outcome == 0 && !game.win && game.payout == 0)
    && (game.resolved ==>
          game.outcome <= U32_MAX && game.win == Wins(game.prediction, game.outcome) && game.payout == Payout(game.wager, game.win))
  }

  class Game {
    /** The contract's own address: the house, which holds the escrow. */
    const self: Address
    var config: Option<Config>
    /** `Game(game_id)`. */
    var games: map<GameId, GameData>
    /** The balance contract's ledger. */
    var balances: map<Address, int>

    ghost predicate Valid()
      reads this
    {
      && (config.None? ==> games == map[])
      && (forall id :: id in games ==> WellFormed(games[id]))
    }

    constructor (self: Address, balances: map<Address, int>)
      ensures Valid()
      ensures this.self == self && this.balances == balances
      ensures config == None && games == map[]
    {
      this.self := self;
      this.balances := balances;
      config := None;
      games := map[];
    }

    /** `init`: stores the admin and the collaborating contracts, once. */
    method Init(admin: Address, rngContract: Address, prizePoolContract: Address, balanceContract: Address)
      returns (r: Result<(), Error>)
      requires Valid()
      modifies this
      ensures Valid()
      ensures games == old(games) && balances == old(balances)
      ensures old(config).Some? ==> r == Err(AlreadyInitialized) && config == old(config)
      ensures old(config).None? ==> r == Ok(()) && config == Some(Config(admin, rngContract, prizePoolContract, balanceContract))
    {
      if config.Some? {
        return Err(AlreadyInitialized);
      }
      config := Some(Config(admin, rngContract, prizePoolContract, balanceContract));
      r := Ok(());
    }

    /** `place_prediction`: escrows `wager` from `player` with the house and
        opens game `gameId` on the prediction coded `prediction`. */
    method PlacePrediction(player: Address, prediction: nat, wager: int, gameId: GameId) returns (r: Result<(), Error>)
      requires Valid()
      modifies this
      ensures Valid()
      ensures config == old(config)
      ensures old(config).None? ==> r == Err(NotInitialized)
      ensures old(config).Some? && ParsePrediction(prediction).Err? ==> r == Err(InvalidPrediction)
      ensures old(config).Some? && ParsePrediction(prediction).Ok? && RequireWagerBounds(wager).Err? ==> r == Err(InvalidWager)
      ensures old(config).Some? && ParsePrediction(prediction).Ok? && RequireWagerBounds(wager).Ok? ==>
        && (gameId in old(games) ==> r == Err(GameAlreadyExists))
        && (gameId !in old(games) && BalanceOf(old(balances), player) < wager ==> r == Err(InsufficientBalance))
        && (gameId !in old(games) && wager <= BalanceOf(old(balances), player) ==> r == Ok(()))
      ensures r.Err? ==> games == old(games) && balances == old(balances)
      ensures r.Ok? ==>
        && games == old(games)[gameId := GameData(player, ParsePrediction(prediction).value, wager, false, 0, false, 0)]
        && balances == Move(old(balances), player, self, wager)
    {
      if config.None? {
        return Err(NotInitialized);
      }
      var parsed := ParsePrediction(prediction);
      if parsed.Err? {
        return Err(parsed.error);
      }
      var bounds := RequireWagerBounds(wager);
      if bounds.Err? {
        return Err(bounds.error);
      }
      if gameId in games {
        return Err(GameAlreadyExists);
      }
      if BalanceOf(balances, player) < wager {
        return Err(InsufficientBalance);
      }
      // The balance contract debits the player and credits the house.
      balances := Move(balances, player, self, wager);
      games := games[gameId := GameData(player, parsed.value, wager, false, 0, false, 0)];
      r := Ok(());
    }

    /** `resolve_game`: settles game `gameId` against the RNG, whose readiness
        and `u32` result for the game are `rngReady` and `rngResult`. */
    method ResolveGame(gameId: GameId, rngReady: bool, rngResult: nat) returns (r: Result<(), Error>)
      requires Valid()
      requires rngResult <= U32_MAX
      modifies this
      ensures Valid()
      ensures config == old(config)
      ensures old(config).None? ==> r == Err(NotInitialized)
      ensures old(config).Some? && gameId !in old(games) ==> r == Err(GameNotFound)
      ensures old(config).Some? && gameId in old(games) ==>
        var game := old(games)[gameId];
        var payout := Payout(game.wager, Wins(game.prediction, rngResult));
        && (game.resolved ==> r == Err(AlreadyResolved))
        && (!game.resolved && !rngReady ==> r == Err(RngNotReady))
        && (!game.resolved && rngReady && 0 < payout && BalanceOf(old(balances), self) < payout ==> r == Err(HouseInsufficientFunds))
        && (!game.resolved && rngReady && (payout == 0 || payout <= BalanceOf(old(balances), self)) ==> r == Ok(()))
      ensures r.Err? ==> games == old(games) && balances == old(balances)
      ensures r.Ok? ==>
        var game := old(games)[gameId];
        var win := Wins(game.prediction, rngResult);
        var payout := Payout(game.wager, win);
        && games == old(games)[gameId := game.(resolved := true, outcome := rngResult, win := win, payout := payout)]
        && (payout > 0 ==> balances == Move(old(balances), self, game.player, payout))
        && (payout == 0 ==> balances == old(balances))
    {
      if config.None? {
        return Err(NotInitialized);
      }
      if gameId !in games {
        return Err(GameNotFound);
      }
      var game := games[gameId];
      if game.resolved {
        return Err(AlreadyResolved);
      }
      if !rngReady {
        return Err(RngNotReady);
      }
      var win := Wins(game.prediction, rngResult);
      // `checked_mul(2)` cannot overflow: the stored wager is at most 10^9.
      var payout := Payout(game.wager, win);
      if payout > 0 {
        if BalanceOf(balances, self) < payout {
          return Err(HouseInsufficientFunds);
        }
        // The balance contract debits the house and credits the player.
        balances := Move(balances, self, game.player, payout);
      }
      games := games[gameId := game.(resolved := true, outcome := rngResult, win := win, payout := payout)];
      r := Ok(());
    }

    /** `get_game`. */
    function GetGame(gameId: GameId): (r: Option<GameData>)
      reads this
      ensures r.Some? <==> gameId in games
      ensures r.Some? ==> r.value == games[gameId]
    {
      if gameId in games then Some(games[gameId]) else None
    }

    /** A resolved game paid double its wager exactly when its outcome beat
        the anchor in the predicted direction, and nothing otherwise. */
    lemma ResolvedGameIsDoubleOrNothing(gameId: GameId)
      requires Valid() && gameId in games && games[gameId].resolved
      ensures games[gameId].win <==>
        (games[gameId].prediction == Higher && games[gameId].outcome > ANCHOR_VALUE) ||
        (games[gameId].prediction == Lower && games[gameId].outcome < ANCHOR_VALUE)
      ensures games[gameId].win ==> games[gameId].payout == 2 * games[gameId].wager
      ensures !games[gameId].win ==> games[gameId].payout == 0
      ensures 0 <= games[gameId].payout <= 2 * MAX_WAGER
    {
      assert WellFormed(games[gameId]);
    }
  }
}
