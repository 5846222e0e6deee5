/** The color-prediction game (contracts/color-prediction): players bet once
    per game on one of four colors; a game is created by its first
    prediction, holds at most 500 players, and is resolved once by the admin,
    who reveals the winning color and has the winners counted. */
module ColorPrediction {
  import opened Common

  /** Bounds the per-game player list, and so the resolution loop. */
  const MAX_PLAYERS_PER_GAME: nat := 500

  const COLOR_RED: nat := 0
  const COLOR_GREEN: nat := 1
  const COLOR_BLUE: nat := 2
  const COLOR_YELLOW: nat := 3
  const COLOR_MAX: nat := COLOR_YELLOW

  /** A `u64` game identifier. */
  type GameId = nat

  datatype Error =
    | AlreadyInitialized
    | NotInitialized
    | NotAuthorized
    | InvalidColor
    | InvalidAmount
    | GameNotFound
    | GameAlreadyResolved
    | AlreadyPredicted
    | GameFull
    | Overflow

  datatype Config = Config(admin: Address, rngContract: Address, prizePoolContract: Address, balanceContract: Address)

  datatype GameStatus = Open | Resolved

  /** `player_count`, `winner_count` and `winning_color` are `u32`s. */
  datatype GameData = GameData(totalPot: int, playerCount: nat, winnerCount: nat, winningColor: nat, status: GameStatus)

  datatype PredictionEntry = PredictionEntry(color: nat, wager: int)

  datatype PredictionKey = PredictionKey(gameId: GameId, player: Address)

  /** The record a game starts from when its first prediction arrives. */
  const NEW_GAME: GameData := GameData(0, 0, 0, 0, Open)

  function GameOr(games: map<GameId, GameData>, g: GameId): GameData {
    if g in games then games[g] else NEW_GAME
  }

  /** `PlayerList(g)`, empty when absent. */
  function ListOf(playerLists: map<GameId, seq<Address>>, g: GameId): seq<Address> {
    if g in playerLists then playerLists[g] else []
  }

  function EntryOf(predictions: map<PredictionKey, PredictionEntry>, g: GameId, p: Address): Option<PredictionEntry> {
    Lookup(predictions, PredictionKey(g, p))
  }

  /** Whether `p`'s stored prediction for game `g` is `color`; a player
      without an entry does not count. */
  predicate PickedColor(predictions: map<PredictionKey, PredictionEntry>, g: GameId, p: Address, color: nat) {
    var e := EntryOf(predictions, g, p);
    e.Some? && e.value.color == color
  }

  /** The number of players among `ps` whose prediction for game `g` is `color`. */
  function CountWinners(predictions: map<PredictionKey, PredictionEntry>, g: GameId, ps: seq<Address>, color: nat): (n: nat)
    ensures n <= |ps|
  {
    if ps == [] then 0
    else CountWinners(predictions, g, ps[..|ps| - 1], color) + (if PickedColor(predictions, g, ps[|ps| - 1], color) then 1 else 0)
  }

  /** The sum of the wagers of `ps` on game `g`. */
  function PotOf(predictions: map<PredictionKey, PredictionEntry>, g: GameId, ps: seq<Address>): int {
    if ps == [] then 0
    else
      var e := EntryOf(predictions, g, ps[|ps| - 1]);
      PotOf(predictions, g, ps[..|ps| - 1]) + (if e.Some? then e.value.wager else 0)
  }

  /** Counts and pots only depend on the entries of the players summed over. */
  lemma {:induction false} SumsFrame(p1: map<PredictionKey, PredictionEntry>, p2: map<PredictionKey, PredictionEntry>,
                                     g: GameId, ps: seq<Address>)
    requires forall p :: p in ps ==> EntryOf(p1, g, p) == EntryOf(p2, g, p)
    ensures PotOf(p1, g, ps) == PotOf(p2, g, ps)
    ensures forall c :: CountWinners(p1, g, ps, c) == CountWinners(p2, g, ps, c)
  {
    if ps != [] {
      SumsFrame(p1, p2, g, ps[..|ps| - 1]);
    }
  }

  predicate ValidEntry(e: PredictionEntry) {
    e.color <= COLOR_MAX && 0 < e.wager && InI128(e.wager)
  }

  /** When every listed player holds a valid prediction, the four color
      counts partition the players: every player wins for exactly one color. */
  lemma {:induction false} ColorCountsPartitionPlayers(predictions: map<PredictionKey, PredictionEntry>, g: GameId, ps: seq<Address>)
    requires forall p :: p in ps ==> PredictionKey(g, p) in predictions && ValidEntry(predictions[PredictionKey(g, p)])
    ensures CountWinners(predictions, g, ps, COLOR_RED) + CountWinners(predictions, g, ps, COLOR_GREEN)
          + CountWinners(predictions, g, ps, COLOR_BLUE) + CountWinners(predictions, g, ps, COLOR_YELLOW) == |ps|
  {
    if ps != [] {
      ColorCountsPartitionPlayers(predictions, g, ps[..|ps| - 1]);
    }
  }

  /** Each listed player with a valid prediction adds at least one unit to
      the pot, and the pot is the sum of their wagers. */
  lemma {:induction false} PotAtLeastPlayers(predictions: map<PredictionKey, PredictionEntry>, g: GameId, ps: seq<Address>)
    requires forall p :: p in ps ==> PredictionKey(g, p) in predictions && ValidEntry(predictions[PredictionKey(g, p)])
    ensures |ps| <= PotOf(predictions, g, ps)
  {
    if ps != [] {
      PotAtLeastPlayers(predictions, g, ps[..|ps| - 1]);
    }
  }

  // ---------------------------------------------------------------------
  // The contract's state
  // ---------------------------------------------------------------------

  /** A game's pot is a non-negative `i128`. */
  predicate GameInRange(game: GameData) {
    0 <= game.totalPot && InI128(game.totalPot)
  }

  /** A game's counters agree with its player list `ps`, and a resolved game
      recorded the number of players who picked the winning color. */
  ghost predicate GameAgrees(game: GameData, predictions: map<PredictionKey, PredictionEntry>, g: GameId, ps: seq<Address>) {
    && game.playerCount == |ps| <= MAX_PLAYERS_PER_GAME
    && game.totalPot == PotOf(predictions, g, ps)
    && (game.status == Open ==> game.winnerCount == 0)
    && (game.status == Resolved ==>
          game.winningColor <= COLOR_MAX && game.winnerCount == CountWinners(predictions, g, ps, game.winningColor))
  }

  /** Every game agrees with its list. (The quantifier fires only where a
      proof names the agreement of one game.) */
  ghost predicate AllGamesAgree(games: map<GameId, GameData>, predictions: map<PredictionKey, PredictionEntry>,
                                playerLists: map<GameId, seq<Address>>)
    requires games.Keys <= playerLists.Keys
  {
    forall g {:trigger GameAgrees(games[g], predictions, g, playerLists[g])} ::
      g in games ==> GameAgrees(games[g], predictions, g, playerLists[g])
  }

  /** Every stored prediction belongs to a listed player and every listed
      player has a prediction; nobody is listed twice. */
  ghost predicate ListsMatchPredictions(predictions: map<PredictionKey, PredictionEntry>, playerLists: map<GameId, seq<Address>>) {
    && (forall k :: k in predictions ==> k.gameId in playerLists && k.player in playerLists[k.gameId])
    && (forall g, i :: g in playerLists && 0 <= i < |playerLists[g]| ==> PredictionKey(g, playerLists[g][i]) in predictions)
    && (forall g {:trigger NoDuplicates(playerLists[g])} :: g in playerLists ==> NoDuplicates(playerLists[g]))
  }

  /** The invariant of the contract's storage. */
  ghost predicate Consistent(config: Option<Config>, games: map<GameId, GameData>, playerLists: map<GameId, seq<Address>>,
                             predictions: map<PredictionKey, PredictionEntry>) {
    && (config.None? ==> games == map[] && playerLists == map[] && predictions == map[])
    && games.Keys == playerLists.Keys
    && ListsMatchPredictions(predictions, playerLists)
    && (forall k :: k in predictions ==> ValidEntry(predictions[k]))
    && (forall g :: g in games ==> GameInRange(games[g]))
    && AllGamesAgree(games, predictions, playerLists)
  }

  class ColorGame {
    var config: Option<Config>
    /** `Game(game_id)`. */
    var games: map<GameId, GameData>
    /** `PlayerList(game_id)`. */
    var playerLists: map<GameId, seq<Address>>
    /** `Prediction(game_id, player)`. */
    var predictions: map<PredictionKey, PredictionEntry>

    ghost predicate Valid()
      reads this
    {
      Consistent(config, games, playerLists, predictions)
    }

    constructor ()
      ensures Valid()
      ensures config == None && games == map[] && playerLists == map[] && predictions == map[]
    {
      config := None;
      games := map[];
      playerLists := map[];
      predictions := map[];
    }

    /** `init`: stores the admin and the collaborating contracts, once. */
    method Init(admin: Address, rngContract: Address, prizePoolContract: Address, balanceContract: Address)
      returns (r: Result<(), Error>)
      requires Valid()
      modifies this
      ensures Valid()
      ensures games == old(games) && playerLists == old(playerLists) && predictions == old(predictions)
      ensures old(config).Some? ==> r == Err(AlreadyInitialized) && config == old(config)
      ensures old(config).None? ==> r == Ok(()) && config == Some(Config(admin, rngContract, prizePoolContract, balanceContract))
    {
      if config.Some? {
        return Err(AlreadyInitialized);
      }
      config := Some(Config(admin, rngContract, prizePoolContract, balanceContract));
      r := Ok(());
    }

    /** `place_prediction`: enters `player` into game `gameId` with a wager on
        `color`, creating the game on its first prediction. */
    method PlacePrediction(player: Address, color: nat, wager: int, gameId: GameId) returns (r: Result<(), Error>)
      requires Valid()
      requires InI128(wager)
      modifies this
      ensures Valid()
      ensures config == old(config)
      ensures old(config).None? ==> r == Err(NotInitialized)
      ensures old(config).Some? && color > COLOR_MAX ==> r == Err(InvalidColor)
      ensures old(config).Some? && color <= COLOR_MAX && wager <= 0 ==> r == Err(InvalidAmount)
      ensures old(config).Some? && color <= COLOR_MAX && 0 < wager ==>
        var game := GameOr(old(games), gameId);
        && (game.status != Open ==> r == Err(GameAlreadyResolved))
        && (game.status == Open && game.playerCount >= MAX_PLAYERS_PER_GAME ==> r == Err(GameFull))
        && ((game.status == Open && game.playerCount < MAX_PLAYERS_PER_GAME &&
             PredictionKey(gameId, player) in old(predictions)) ==> r == Err(AlreadyPredicted))
        && ((game.status == Open && game.playerCount < MAX_PLAYERS_PER_GAME &&
             PredictionKey(gameId, player) !in old(predictions)) ==>
              (r.Ok? <==> InI128(game.totalPot + wager)) && (r.Err? ==> r == Err(Overflow)))
      ensures r.Err? ==> games == old(games) && playerLists == old(playerLists) && predictions == old(predictions)
      ensures r.Ok? ==>
        var game := GameOr(old(games), gameId);
        && predictions == old(predictions)[PredictionKey(gameId, player) := PredictionEntry(color, wager)]
        && playerLists == old(playerLists)[gameId := ListOf(old(playerLists), gameId) + [player]]
        && games == old(games)[gameId := game.(totalPot := game.totalPot + wager, playerCount := game.playerCount + 1)]
    {
      if config.None? {
        return Err(NotInitialized);
      }
      if color > COLOR_MAX {
        return Err(InvalidColor);
      }
      if wager <= 0 {
        return Err(InvalidAmount);
      }
      var game := GameOr(games, gameId);
      if game.status != Open {
        return Err(GameAlreadyResolved);
      }
      if game.playerCount >= MAX_PLAYERS_PER_GAME {
        return Err(GameFull);
      }
      var key := PredictionKey(gameId, player);
      if key in predictions {
        return Err(AlreadyPredicted);
      }
      var pot := CheckedAdd(game.totalPot, wager);
      if pot.None? {
        return Err(Overflow);
      }
      // `player_count` cannot overflow its `u32`: it stays below 500.
      var newPredictions := predictions[key := PredictionEntry(color, wager)];
      var newLists := playerLists[gameId := ListOf(playerLists, gameId) + [player]];
      var newGames := games[gameId := game.(totalPot := pot.value, playerCount := game.playerCount + 1)];
      PlaceKeepsConsistent(config.value, games, playerLists, predictions, key, PredictionEntry(color, wager),
                           newGames, newLists, newPredictions);
      predictions, playerLists, games := newPredictions, newLists, newGames;
      r := Ok(());
    }

    /** `resolve_prediction`: the admin declares `winningColor`; the players
        who picked it are counted and the game is closed. */
    method ResolvePrediction(gameId: GameId, winningColor: nat) returns (r: Result<(), Error>)
      requires Valid()
      modifies this
      ensures Valid()
      ensures config == old(config) && playerLists == old(playerLists) && predictions == old(predictions)
      ensures old(config).None? ==> r == Err(NotInitialized)
      ensures old(config).Some? && winningColor > COLOR_MAX ==> r == Err(InvalidColor)
      ensures old(config).Some? && winningColor <= COLOR_MAX && gameId !in old(games) ==> r == Err(GameNotFound)
      ensures old(config).Some? && winningColor <= COLOR_MAX && gameId in old(games) && old(games)[gameId].status != Open ==>
        r == Err(GameAlreadyResolved)
      ensures r.Ok? <==>
        old(config).Some? && winningColor <= COLOR_MAX && gameId in old(games) && old(games)[gameId].status == Open
      ensures r.Err? ==> games == old(games)
      ensures r.Ok? ==>
        var game := old(games)[gameId];
        games == old(games)[gameId := game.(status := Resolved, winningColor := winningColor,
                             winnerCount := CountWinners(predictions, gameId, ListOf(playerLists, gameId), winningColor))]
      ensures r.Ok? ==> games[gameId].winnerCount <= games[gameId].playerCount
    {
      if config.None? {
        return Err(NotInitialized);
      }
      if winningColor > COLOR_MAX {
        return Err(InvalidColor);
      }
      if gameId !in games {
        return Err(GameNotFound);
      }
      var game := games[gameId];
      if game.status != Open {
        return Err(GameAlreadyResolved);
      }
      var players := ListOf(playerLists, gameId);
      var winnerCount := 0;
      for i := 0 to |players|
        invariant winnerCount == CountWinners(predictions, gameId, players[..i], winningColor)
      {
        var key := PredictionKey(gameId, players[i]);
        if key in predictions && predictions[key].color == winningColor {
          winnerCount := winnerCount + 1;
        }
        assert players[..i + 1][..i] == players[..i];
      }
      assert players[..|players|] == players;
      // `winner_count` cannot overflow its `u32`: it is at most the player count.
      var resolved := game.(status := Resolved, winningColor := winningColor, winnerCount := winnerCount);
      var newGames := games[gameId := resolved];
      ResolveKeepsConsistent(config.value, games, playerLists, predictions, gameId, resolved, newGames);
      games := newGames;
      r := Ok(());
    }

    /** `get_game`. */
    function GetGame(gameId: GameId): (r: Option<GameData>)
      reads this
      ensures r.Some? <==> gameId in games
      ensures r.Some? ==> r.value == games[gameId]
    {
      if gameId in games then Some(games[gameId]) else None
    }

    /** A game's pot is the sum of its players' wagers, each player adding at
        least one unit, and it never counts more winners than players. */
    lemma GameTotals(gameId: GameId)
      requires Valid() && gameId in games
      ensures games[gameId].totalPot == PotOf(predictions, gameId, playerLists[gameId])
      ensures games[gameId].playerCount <= games[gameId].totalPot
      ensures games[gameId].playerCount <= MAX_PLAYERS_PER_GAME
      ensures games[gameId].winnerCount <= games[gameId].playerCount
    {
      var ps := playerLists[gameId];
      assert GameAgrees(games[gameId], predictions, gameId, ps);
      forall p | p in ps
        ensures PredictionKey(gameId, p) in predictions && ValidEntry(predictions[PredictionKey(gameId, p)])
      {
        var i :| 0 <= i < |ps| && ps[i] == p;
      }
      PotAtLeastPlayers(predictions, gameId, ps);
    }
  }

  /** Listing a player who had no prediction in the game keeps predictions
      and player lists in step. */
  lemma PlaceKeepsLists(predictions: map<PredictionKey, PredictionEntry>, playerLists: map<GameId, seq<Address>>,
                        key: PredictionKey, entry: PredictionEntry,
                        np: map<PredictionKey, PredictionEntry>, nl: map<GameId, seq<Address>>)
    requires ListsMatchPredictions(predictions, playerLists) && key !in predictions
    requires np == predictions[key := entry] && nl == playerLists[key.gameId := ListOf(playerLists, key.gameId) + [key.player]]
    ensures key.player !in ListOf(playerLists, key.gameId)
    ensures ListsMatchPredictions(np, nl)
  {
    var g, ps := key.gameId, ListOf(playerLists, key.gameId);
    if g in playerLists {
      NoDuplicatesAppend(ps, key.player);
      assert NoDuplicates(nl[g]);
    }
    forall k | k in np
      ensures k.gameId in nl && k.player in nl[k.gameId]
    {
      if k != key && k.gameId == g {
        assert k.player in ps;
      }
    }
    forall x, i | x in nl && 0 <= i < |nl[x]|
      ensures PredictionKey(x, nl[x][i]) in np
    {
      if x == g && i < |ps| {
        assert nl[x][i] == ps[i];
      }
    }
  }

  /** Adding a new player's wager to an open game keeps every game's
      counters in step with its list. */
  lemma PlaceKeepsAgreement(games: map<GameId, GameData>, playerLists: map<GameId, seq<Address>>,
                            predictions: map<PredictionKey, PredictionEntry>, key: PredictionKey, entry: PredictionEntry,
                            ng: map<GameId, GameData>, nl: map<GameId, seq<Address>>, np: map<PredictionKey, PredictionEntry>)
    requires games.Keys == playerLists.Keys && AllGamesAgree(games, predictions, playerLists)
    requires key.player !in ListOf(playerLists, key.gameId)
    requires GameOr(games, key.gameId).status == Open && GameOr(games, key.gameId).playerCount < MAX_PLAYERS_PER_GAME
    requires key.gameId !in games ==> forall k :: k in predictions ==> k.gameId != key.gameId
    requires np == predictions[key := entry] && nl == playerLists[key.gameId := ListOf(playerLists, key.gameId) + [key.player]]
    requires var game := GameOr(games, key.gameId);
      ng == games[key.gameId := game.(totalPot := game.totalPot + entry.wager, playerCount := game.playerCount + 1)]
    ensures ng.Keys == nl.Keys && AllGamesAgree(ng, np, nl)
  {
    var g, ps := key.gameId, ListOf(playerLists, key.gameId);
    SumsFrame(np, predictions, g, ps);
    assert (ps + [key.player])[..|ps|] == ps;
    forall x | x in ng
      ensures GameAgrees(ng[x], np, x, nl[x])
    {
      if x != g {
        assert GameAgrees(games[x], predictions, x, playerLists[x]);
        assert ng[x] == games[x] && nl[x] == playerLists[x];
        SumsFrame(np, predictions, x, nl[x]);
      } else if g in games {
        assert GameAgrees(games[g], predictions, g, playerLists[g]);
      } else {
        assert PotOf(predictions, g, []) == 0;
      }
    }
  }

  /** Recording a first, valid prediction in an open game with room keeps the invariant. */
  lemma PlaceKeepsConsistent(cfg: Config, games: map<GameId, GameData>, playerLists: map<GameId, seq<Address>>,
                             predictions: map<PredictionKey, PredictionEntry>, key: PredictionKey, entry: PredictionEntry,
                             ng: map<GameId, GameData>, nl: map<GameId, seq<Address>>, np: map<PredictionKey, PredictionEntry>)
    requires Consistent(Some(cfg), games, playerLists, predictions)
    requires key !in predictions && ValidEntry(entry)
    requires GameOr(games, key.gameId).status == Open && GameOr(games, key.gameId).playerCount < MAX_PLAYERS_PER_GAME
    requires InI128(GameOr(games, key.gameId).totalPot + entry.wager)
    requires np == predictions[key := entry] && nl == playerLists[key.gameId := ListOf(playerLists, key.gameId) + [key.player]]
    requires var game := GameOr(games, key.gameId);
      ng == games[key.gameId := game.(totalPot := game.totalPot + entry.wager, playerCount := game.playerCount + 1)]
    ensures Consistent(Some(cfg), ng, nl, np)
  {
    PlaceKeepsLists(predictions, playerLists, key, entry, np, nl);
    PlaceKeepsAgreement(games, playerLists, predictions, key, entry, ng, nl, np);
  }

  /** Replacing an open game by its resolution, with the winners counted over
      its list, keeps the invariant. */
  lemma ResolveKeepsConsistent(cfg: Config, games: map<GameId, GameData>, playerLists: map<GameId, seq<Address>>,
                               predictions: map<PredictionKey, PredictionEntry>, g: GameId, resolved: GameData,
                               ng: map<GameId, GameData>)
    requires Consistent(Some(cfg), games, playerLists, predictions)
    requires g in games && resolved.status == Resolved && resolved.winningColor <= COLOR_MAX
    requires resolved == games[g].(status := resolved.status, winningColor := resolved.winningColor,
                                   winnerCount := resolved.winnerCount)
    requires resolved.winnerCount == CountWinners(predictions, g, ListOf(playerLists, g), resolved.winningColor)
    requires ng == games[g := resolved]
    ensures Consistent(Some(cfg), ng, playerLists, predictions)
    ensures resolved.winnerCount <= resolved.playerCount
  {
    forall x | x in ng
      ensures GameAgrees(ng[x], predictions, x, playerLists[x])
    {
      assert GameAgrees(games[x], predictions, x, playerLists[x]);
      if x != g {
        assert ng[x] == games[x];
      }
    }
    assert GameAgrees(ng[g], predictions, g, playerLists[g]);
  }
}
