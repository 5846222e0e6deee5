/** The speed-trivia game (contracts/speed-trivia): the admin opens a round
    with a SHA-256 commitment to the answer, a deadline and a reward reserved
    in the prize pool; players submit one answer each before the deadline;
    the admin finalizes the round, splitting the reward evenly among the
    correct answers; each winner claims their share once. */
module SpeedTrivia {
  import opened Common

  /** A `u64` round identifier. */
  type RoundId = nat

  /** Raw bytes, and a `BytesN<32>` digest. */
  type Bytes = seq<bv8>
  type Digest = seq<bv8>

  datatype Error =
    | AlreadyInitialized
    | NotInitialized
    | NotAuthorized
    | RoundAlreadyExists
    | RoundNotFound
    | RoundNotOpen
    | RoundClosed
    | AlreadySubmitted
    | AlreadyClaimed
    | NoRewardAvailable
    | InvalidAmount
    | Overflow
    | InvalidDeadline
    | PastDeadline

  datatype Config = Config(admin: Address, prizePoolContract: Address, balanceContract: Address)

  datatype RoundStatus = Open | Finalized

  /** `winner_count` is a `u32`; `deadline` and `opened_at` are `u64` ledger times. */
  datatype RoundData = RoundData(answerCommitment: Digest, rewardAmount: int, payoutPerWinner: int, winnerCount: nat,
                                 status: RoundStatus, deadline: nat, openedAt: nat)

  datatype Submission = Submission(answerHash: Digest, correct: bool, claimed: bool, timestamp: nat)

  datatype SubmissionKey = SubmissionKey(roundId: RoundId, player: Address)

  /** What this contract has asked the prize pool to do for one round: the
      amount reserved at opening, the amount released when nobody won, and
      the total paid out to winners. */
  datatype PoolAccount = PoolAccount(reserved: int, released: int, paid: int)

  /** The payout per winner fixed at finalization: the reward split evenly
      (rounding toward zero) among the winners, or 0 without winners. */
  function PayoutPerWinner(reward: int, winners: nat): (p: int)
    ensures winners == 0 ==> p == 0
    ensures 0 <= reward && 0 < winners ==> 0 <= p && p * winners <= reward < p * winners + winners
  {
    if winners == 0 then 0
    else
      // `checked_div` only fails on a zero divisor or on `MIN / -1`, neither
      // possible for a positive winner count, so it is Rust's plain division.
      TruncDivBounds(reward, winners);
      TruncDiv(reward, winners)
  }

  /** The winners never share out more than the reward, and a reward smaller
      than the number of winners pays nobody anything. */
  lemma PayoutWithinReward(reward: int, winners: nat)
    requires 0 < reward && InI128(reward)
    ensures 0 <= PayoutPerWinner(reward, winners)
    ensures PayoutPerWinner(reward, winners) * winners <= reward
    ensures reward < winners ==> PayoutPerWinner(reward, winners) == 0
  {
    var p := PayoutPerWinner(reward, winners);
    if 0 < winners && 1 <= p {
      MulMonotone(winners, 1, p);
      assert p * winners == winners * p;
    }
  }

  /** A reward of 1 000 shared by three winners pays 333 each. */
  lemma ThreeWayExample()
    ensures PayoutPerWinner(1000, 3) == 333
  {
  }

  function SubmissionOf(submissions: map<SubmissionKey, Submission>, id: RoundId, p: Address): Option<Submission> {
    Lookup(submissions, SubmissionKey(id, p))
  }

  /** The number of correct submissions by the players `ps` in round `id`. */
  function CountCorrect(submissions: map<SubmissionKey, Submission>, id: RoundId, ps: seq<Address>): (n: nat)
    ensures n <= |ps|
  {
    if ps == [] then 0
    else
      var s := SubmissionOf(submissions, id, ps[|ps| - 1]);
      CountCorrect(submissions, id, ps[..|ps| - 1]) + (if s.Some? && s.value.correct then 1 else 0)
  }

  /** The number of claimed submissions by the players `ps` in round `id`. */
  function CountClaimed(submissions: map<SubmissionKey, Submission>, id: RoundId, ps: seq<Address>): (n: nat)
    ensures n <= |ps|
  {
    if ps == [] then 0
    else
      var s := SubmissionOf(submissions, id, ps[|ps| - 1]);
      CountClaimed(submissions, id, ps[..|ps| - 1]) + (if s.Some? && s.value.claimed then 1 else 0)
  }

  /** The counts only depend on the submissions of the players counted. */
  lemma {:induction false} CountsFrame(s1: map<SubmissionKey, Submission>, s2: map<SubmissionKey, Submission>,
                                       id: RoundId, ps: seq<Address>)
    requires forall p :: p in ps ==> SubmissionOf(s1, id, p) == SubmissionOf(s2, id, p)
    ensures CountCorrect(s1, id, ps) == CountCorrect(s2, id, ps)
    ensures CountClaimed(s1, id, ps) == CountClaimed(s2, id, ps)
  {
    if ps != [] {
      CountsFrame(s1, s2, id, ps[..|ps| - 1]);
    }
  }

  /** Only correct submissions get claimed, so claims never outnumber winners. */
  lemma {:induction false} ClaimedWithinCorrect(submissions: map<SubmissionKey, Submission>, id: RoundId, ps: seq<Address>)
    requires forall k :: k in submissions && submissions[k].claimed ==> submissions[k].correct
    ensures CountClaimed(submissions, id, ps) <= CountCorrect(submissions, id, ps)
  {
    if ps != [] {
      ClaimedWithinCorrect(submissions, id, ps[..|ps| - 1]);
    }
  }

  /** Marking one listed, unclaimed submission as claimed adds exactly one
      claim and leaves the correct count alone. */
  lemma {:induction false} ClaimAddsOne(submissions: map<SubmissionKey, Submission>, id: RoundId, ps: seq<Address>, player: Address)
    requires NoDuplicates(ps) && player in ps
    requires SubmissionKey(id, player) in submissions && !submissions[SubmissionKey(id, player)].claimed
    ensures var key := SubmissionKey(id, player);
      var after := submissions[key := submissions[key].(claimed := true)];
      && CountClaimed(after, id, ps) == CountClaimed(submissions, id, ps) + 1
      && CountCorrect(after, id, ps) == CountCorrect(submissions, id, ps)
  {
    var key := SubmissionKey(id, player);
    var after := submissions[key := submissions[key].(claimed := true)];
    var init, last := ps[..|ps| - 1], ps[|ps| - 1];
    assert ps == init + [last];
    if last == player {
      CountsFrame(after, submissions, id, init);
    } else {
      assert NoDuplicates(init) by {
        forall i, j | 0 <= i < j < |init|
          ensures init[i] != init[j]
        {
          assert init[i] == ps[i] && init[j] == ps[j];
        }
      }
      ClaimAddsOne(submissions, id, init, player);
    }
  }

  /** The error `submit_answer` stops at before judging the answer, checked
      in the source's order, or `None` when the submission is admissible:
      the round must exist, be open and not past its deadline at `now`, the
      caller's timestamp must not lie in the future, and the player must not
      have answered yet. */
  function SubmitRefusal(round: Option<RoundData>, submitted: bool, timestamp: nat, now: nat): (e: Option<Error>)
    ensures e.None? <==> round.Some? && round.value.status == Open && now <= round.value.deadline && timestamp <= now && !submitted
    ensures round.None? ==> e == Some(RoundNotFound)
    ensures round.Some? && round.value.status != Open ==> e == Some(RoundClosed)
    ensures round.Some? && round.value.status == Open && now > round.value.deadline ==> e == Some(PastDeadline)
    ensures round.Some? && round.value.status == Open && now <= round.value.deadline && timestamp > now ==> e == Some(InvalidAmount)
    ensures round.Some? && round.value.status == Open && now <= round.value.deadline && timestamp <= now && submitted ==>
      e == Some(AlreadySubmitted)
  {
    if round.None? then Some(RoundNotFound)
    else if round.value.status != Open then Some(RoundClosed)
    else if now > round.value.deadline then Some(PastDeadline)
    else if timestamp > now then Some(InvalidAmount)
    else if submitted then Some(AlreadySubmitted)
    else None
  }

  /** A round after judging one more submission: one more winner exactly
      when the answer was correct. */
  function Judged(round: RoundData, correct: bool): (judged: RoundData)
    ensures judged.winnerCount == round.winnerCount + (if correct then 1 else 0)
    ensures judged.(winnerCount := round.winnerCount) == round
  {
    if correct then round.(winnerCount := round.winnerCount + 1) else round
  }

  // ---------------------------------------------------------------------
  // The contract's state
  // ---------------------------------------------------------------------

  /** A round's reward is a positive `i128` and its winner count a `u32`. */
  predicate RoundInRange(round: RoundData) {
    0 < round.rewardAmount && InI128(round.rewardAmount) && round.winnerCount <= U32_MAX
  }

  /** A round agrees with its submitters `ps` and with the prize pool's
      account for it: the winners are the correct submissions; an open
      round has paid nothing; a finalized round fixed its payout from its
      winners, released the whole reward if there were none, and has paid
      the payout once per claim. */
  ghost predicate RoundAgrees(round: RoundData, account: PoolAccount, submissions: map<SubmissionKey, Submission>,
                              id: RoundId, ps: seq<Address>) {
    && round.winnerCount == CountCorrect(submissions, id, ps)
    && account.reserved == round.rewardAmount
    && (round.status == Open ==>
          round.payoutPerWinner == 0 && account.released == 0 && account.paid == 0 && CountClaimed(submissions, id, ps) == 0)
    && (round.status == Finalized ==>
          && round.payoutPerWinner == PayoutPerWinner(round.rewardAmount, round.winnerCount)
          && account.released == (if round.winnerCount == 0 then round.rewardAmount else 0)
          && account.paid == round.payoutPerWinner * CountClaimed(submissions, id, ps))
  }

  ghost predicate AllRoundsAgree(rounds: map<RoundId, RoundData>, pool: map<RoundId, PoolAccount>,
                                 submissions: map<SubmissionKey, Submission>, submitters: map<RoundId, seq<Address>>)
    requires rounds.Keys <= pool.Keys && rounds.Keys <= submitters.Keys
  {
    forall id {:trigger RoundAgrees(rounds[id], pool[id], submissions, id, submitters[id])} ::
      id in rounds ==> RoundAgrees(rounds[id], pool[id], submissions, id, submitters[id])
  }

  /** Every submission belongs to a listed submitter, every listed submitter
      has a submission, and nobody is listed twice. */
  ghost predicate SubmittersMatch(submissions: map<SubmissionKey, Submission>, submitters: map<RoundId, seq<Address>>) {
    && (forall k :: k in submissions ==> k.roundId in submitters && k.player in submitters[k.roundId])
    && (forall id, i :: id in submitters && 0 <= i < |submitters[id]| ==> SubmissionKey(id, submitters[id][i]) in submissions)
    && (forall id {:trigger NoDuplicates(submitters[id])} :: id in submitters ==> NoDuplicates(submitters[id]))
  }

  /** The invariant of the contract's storage and of the prize pool's accounts. */
  ghost predicate Consistent(config: Option<Config>, rounds: map<RoundId, RoundData>, submissions: map<SubmissionKey, Submission>,
                             pool: map<RoundId, PoolAccount>, submitters: map<RoundId, seq<Address>>) {
    && (config.None? ==> rounds == map[] && submissions == map[] && pool == map[])
    && rounds.Keys == submitters.Keys && rounds.Keys == pool.Keys
    && SubmittersMatch(submissions, submitters)
    && (forall k :: k in submissions && submissions[k].claimed ==> submissions[k].correct)
    && (forall id :: id in rounds ==> RoundInRange(rounds[id]))
    && AllRoundsAgree(rounds, pool, submissions, submitters)
  }

  class Trivia {
    /** The contract's own address, whose balance funds the winners. */
    const self: Address
    /** The `sha256` host function. */
    const sha256: Bytes -> Digest
    var config: Option<Config>
    /** `Round(round_id)`. */
    var rounds: map<RoundId, RoundData>
    /** `Submission(round_id, player)`. */
    var submissions: map<SubmissionKey, Submission>
    /** The prize pool contract's accounts, as far as this contract drives them. */
    var pool: map<RoundId, PoolAccount>
    /** The balance contract's ledger. */
    var balances: map<Address, int>
    /** For each round, the players who submitted, in order. */
    ghost var submitters: map<RoundId, seq<Address>>

    ghost predicate Valid()
      reads this
    {
      Consistent(config, rounds, submissions, pool, submitters)
    }

    constructor (self: Address, sha256: Bytes -> Digest, balances: map<Address, int>)
      ensures Valid()
      ensures this.self == self && this.sha256 == sha256 && this.balances == balances
      ensures config == None && rounds == map[] && submissions == map[] && pool == map[]
    {
      this.self := self;
      this.sha256 := sha256;
      this.balances := balances;
      config := None;
      rounds := map[];
      submissions := map[];
      pool := map[];
      submitters := map[];
    }

    /** `init`: stores the admin and the collaborating contracts, once. */
    method Init(admin: Address, prizePoolContract: Address, balanceContract: Address) returns (r: Result<(), Error>)
      requires Valid()
      modifies this
      ensures Valid()
      ensures rounds == old(rounds) && submissions == old(submissions) && pool == old(pool) && balances == old(balances)
      ensures old(config).Some? ==> r == Err(AlreadyInitialized) && config == old(config)
      ensures old(config).None? ==> r == Ok(()) && config == Some(Config(admin, prizePoolContract, balanceContract))
    {
      if config.Some? {
        return Err(AlreadyInitialized);
      }
      config := Some(Config(admin, prizePoolContract, balanceContract));
      r := Ok(());
    }

    /** `open_question`: opens round `roundId` at ledger time `now`, reserving
        `rewardAmount` in the prize pool. */
    method OpenQuestion(roundId: RoundId, answerCommitment: Digest, deadline: nat, rewardAmount: int, now: nat)
      returns (r: Result<(), Error>)
      requires Valid()
      requires InI128(rewardAmount)
      modifies this
      ensures Valid()
      ensures config == old(config) && submissions == old(submissions) && balances == old(balances)
      ensures old(config).None? ==> r == Err(NotInitialized)
      ensures old(config).Some? && rewardAmount <= 0 ==> r == Err(InvalidAmount)
      ensures old(config).Some? && 0 < rewardAmount && deadline <= now ==> r == Err(InvalidDeadline)
      ensures old(config).Some? && 0 < rewardAmount && now < deadline && roundId in old(rounds) ==> r == Err(RoundAlreadyExists)
      ensures r.Ok? <==> old(config).Some? && 0 < rewardAmount && now < deadline && roundId !in old(rounds)
      ensures r.Err? ==> rounds == old(rounds) && pool == old(pool)
      ensures r.Ok? ==>
        && rounds == old(rounds)[roundId := RoundData(answerCommitment, rewardAmount, 0, 0, Open, deadline, now)]
        && pool == old(pool)[roundId := PoolAccount(rewardAmount, 0, 0)]
    {
      if config.None? {
        return Err(NotInitialized);
      }
      if rewardAmount <= 0 {
        return Err(InvalidAmount);
      }
      if deadline <= now {
        return Err(InvalidDeadline);
      }
      if roundId in rounds {
        return Err(RoundAlreadyExists);
      }
      var round := RoundData(answerCommitment, rewardAmount, 0, 0, Open, deadline, now);
      var account := PoolAccount(rewardAmount, 0, 0);
      OpenKeepsConsistent(config.value, rounds, submissions, pool, submitters, roundId, round, account);
      rounds := rounds[roundId := round];
      pool := pool[roundId := account];
      submitters := submitters[roundId := []];
      r := Ok(());
    }

    /** `submit_answer`: records `player`'s one answer to round `roundId`,
        judged against the commitment by its SHA-256 digest. */
    method SubmitAnswer(player: Address, roundId: RoundId, answer: Bytes, timestamp: nat, now: nat)
      returns (r: Result<(), Error>)
      requires Valid()
      modifies this
      ensures Valid()
      ensures config == old(config) && pool == old(pool) && balances == old(balances)
      ensures old(config).None? ==> r == Err(NotInitialized)
      ensures old(config).Some? ==>
        var refusal := SubmitRefusal(Lookup(old(rounds), roundId), SubmissionKey(roundId, player) in old(submissions), timestamp, now);
        && (refusal.Some? ==> r == Err(refusal.value))
        && (refusal.None? ==>
              var round := old(rounds)[roundId];
              (r.Ok? <==> sha256(answer) != round.answerCommitment || round.winnerCount + 1 <= U32_MAX)
              && (r.Err? ==> r == Err(Overflow)))
      ensures r.Err? ==> rounds == old(rounds) && submissions == old(submissions)
      ensures r.Ok? ==>
        var round := old(rounds)[roundId];
        var digest := sha256(answer);
        var correct := digest == round.answerCommitment;
        && submissions == old(submissions)[SubmissionKey(roundId, player) := Submission(digest, correct, false, timestamp)]
        && rounds == old(rounds)[roundId := Judged(round, correct)]
    {
      if config.None? {
        return Err(NotInitialized);
      }
      var key := SubmissionKey(roundId, player);
      var refusal := SubmitRefusal(Lookup(rounds, roundId), key in submissions, timestamp, now);
      if refusal.Some? {
        return Err(refusal.value);
      }
      var round := rounds[roundId];
      var digest := sha256(answer);
      var correct := digest == round.answerCommitment;
      if correct && round.winnerCount + 1 > U32_MAX {
        return Err(Overflow);
      }
      var newRound := Judged(round, correct);
      var submission := Submission(digest, correct, false, timestamp);
      var newSubmissions, newRounds := submissions[key := submission], rounds[roundId := newRound];
      ghost var newSubmitters := submitters[roundId := submitters[roundId] + [player]];
      SubmitKeepsConsistent(config.value, rounds, submissions, pool, submitters, key, submission, newRound,
                            newRounds, newSubmissions, newSubmitters);
      submissions, rounds, submitters := newSubmissions, newRounds, newSubmitters;
      r := Ok(());
    }

    /** `finalize_round`: closes round `roundId`, fixing the payout per winner
        and handing the whole reward back to the pool if nobody won. */
    method FinalizeRound(roundId: RoundId) returns (r: Result<(), Error>)
      requires Valid()
      modifies this
      ensures Valid()
      ensures config == old(config) && submissions == old(submissions) && balances == old(balances)
      ensures old(config).None? ==> r == Err(NotInitialized)
      ensures old(config).Some? && roundId !in old(rounds) ==> r == Err(RoundNotFound)
      ensures old(config).Some? && roundId in old(rounds) && old(rounds)[roundId].status != Open ==> r == Err(RoundClosed)
      ensures r.Ok? <==> old(config).Some? && roundId in old(rounds) && old(rounds)[roundId].status == Open
      ensures r.Err? ==> rounds == old(rounds) && pool == old(pool)
      ensures r.Ok? ==>
        var round := old(rounds)[roundId];
        var payout := PayoutPerWinner(round.rewardAmount, round.winnerCount);
        && rounds == old(rounds)[roundId := round.(status := Finalized, payoutPerWinner := payout)]
        && (round.winnerCount == 0 ==> pool == old(pool)[roundId := old(pool)[roundId].(released := round.rewardAmount)])
        && (round.winnerCount != 0 ==> pool == old(pool))
        && payout * round.winnerCount <= round.rewardAmount
    {
      if config.None? {
        return Err(NotInitialized);
      }
      if roundId !in rounds {
        return Err(RoundNotFound);
      }
      var round := rounds[roundId];
      if round.status != Open {
        return Err(RoundClosed);
      }
      var payout := PayoutPerWinner(round.rewardAmount, round.winnerCount);
      var account := pool[roundId];
      if round.winnerCount == 0 {
        account := account.(released := round.rewardAmount);
      }
      var finalized := round.(status := Finalized, payoutPerWinner := payout);
      var newRounds, newPool := rounds[roundId := finalized], pool[roundId := account];
      FinalizeKeepsConsistent(config.value, rounds, submissions, pool, submitters, roundId, finalized, account, newRounds, newPool);
      rounds, pool := newRounds, newPool;
      r := Ok(());
    }

    /** `claim_reward`: pays a correct submitter of a finalized round its
        share once, through the prize pool and the balance ledger. */
    method ClaimReward(player: Address, roundId: RoundId) returns (r: Result<int, Error>)
      requires Valid()
      modifies this
      ensures Valid()
      ensures config == old(config) && rounds == old(rounds)
      ensures old(config).None? ==> r == Err(NotInitialized)
      ensures old(config).Some? && roundId !in old(rounds) ==> r == Err(RoundNotFound)
      ensures old(config).Some? && roundId in old(rounds) && old(rounds)[roundId].status != Finalized ==> r == Err(RoundNotOpen)
      ensures old(config).Some? && roundId in old(rounds) && old(rounds)[roundId].status == Finalized ==>
        var key := SubmissionKey(roundId, player);
        var payout := old(rounds)[roundId].payoutPerWinner;
        && (key !in old(submissions) ==> r == Err(NoRewardAvailable))
        && (key in old(submissions) && old(submissions)[key].claimed ==> r == Err(AlreadyClaimed))
        && (key in old(submissions) && !old(submissions)[key].claimed ==>
              if old(submissions)[key].correct && 0 < payout then r == Ok(payout) else r == Err(NoRewardAvailable))
      ensures r.Err? ==> submissions == old(submissions) && pool == old(pool) && balances == old(balances)
      ensures r.Ok? ==>
        var key := SubmissionKey(roundId, player);
        && submissions == old(submissions)[key := old(submissions)[key].(claimed := true)]
        && pool == old(pool)[roundId := old(pool)[roundId].(paid := old(pool)[roundId].paid + r.value)]
        && balances == Move(old(balances), self, player, r.value)
    {
      if config.None? {
        return Err(NotInitialized);
      }
      if roundId !in rounds {
        return Err(RoundNotFound);
      }
      var round := rounds[roundId];
      if round.status != Finalized {
        return Err(RoundNotOpen);
      }
      var key := SubmissionKey(roundId, player);
      if key !in submissions {
        return Err(NoRewardAvailable);
      }
      var submission := submissions[key];
      if submission.claimed {
        return Err(AlreadyClaimed);
      }
      if !submission.correct || round.payoutPerWinner <= 0 {
        return Err(NoRewardAvailable);
      }
      var payout := round.payoutPerWinner;
      var account := pool[roundId].(paid := pool[roundId].paid + payout);
      var newSubmissions, newPool := submissions[key := submission.(claimed := true)], pool[roundId := account];
      ClaimKeepsConsistent(config.value, rounds, submissions, pool, submitters, key, newSubmissions, newPool);
      submissions, pool := newSubmissions, newPool;
      // The balance contract debits this contract and credits the player.
      balances := Move(balances, self, player, payout);
      r := Ok(payout);
    }

    /** `get_round`. */
    function GetRound(roundId: RoundId): (r: Option<RoundData>)
      reads this
      ensures r.Some? <==> roundId in rounds
      ensures r.Some? ==> r.value == rounds[roundId]
    {
      if roundId in rounds then Some(rounds[roundId]) else None
    }

    /** The prize pool is never asked to hand out more than it reserved for a
        round: the payouts to winners plus any release stay within the reward. */
    lemma PoolNeverOverdrawn(roundId: RoundId)
      requires Valid() && roundId in rounds
      ensures 0 <= pool[roundId].paid && 0 <= pool[roundId].released
      ensures pool[roundId].paid + pool[roundId].released <= pool[roundId].reserved
      ensures pool[roundId].reserved == rounds[roundId].rewardAmount
    {
      var round, ps := rounds[roundId], submitters[roundId];
      assert RoundAgrees(round, pool[roundId], submissions, roundId, ps);
      if round.status == Finalized {
        var claims := CountClaimed(submissions, roundId, ps);
        ClaimedWithinCorrect(submissions, roundId, ps);
        PayoutWithinReward(round.rewardAmount, round.winnerCount);
        MulNonNegative(round.payoutPerWinner, claims);
        MulMonotone(round.payoutPerWinner, claims, round.winnerCount);
        assert round.payoutPerWinner * round.winnerCount == round.winnerCount * round.payoutPerWinner;
      }
    }

    /** A round's winner count is the number of its correct submissions, and
        only correct submissions are ever claimed. */
    lemma WinnersAreCorrectSubmissions(roundId: RoundId)
      requires Valid() && roundId in rounds
      ensures rounds[roundId].winnerCount == CountCorrect(submissions, roundId, submitters[roundId])
      ensures CountClaimed(submissions, roundId, submitters[roundId]) <= rounds[roundId].winnerCount
    {
      assert RoundAgrees(rounds[roundId], pool[roundId], submissions, roundId, submitters[roundId]);
      ClaimedWithinCorrect(submissions, roundId, submitters[roundId]);
    }
  }

  /** Opening a fresh round with an empty submitter list keeps the invariant. */
  lemma OpenKeepsConsistent(cfg: Config, rounds: map<RoundId, RoundData>, submissions: map<SubmissionKey, Submission>,
                            pool: map<RoundId, PoolAccount>, submitters: map<RoundId, seq<Address>>,
                            id: RoundId, round: RoundData, account: PoolAccount)
    requires Consistent(Some(cfg), rounds, submissions, pool, submitters) && id !in rounds
    requires round.status == Open && round.winnerCount == 0 && round.payoutPerWinner == 0
    requires 0 < round.rewardAmount && InI128(round.rewardAmount)
    requires account == PoolAccount(round.rewardAmount, 0, 0)
    ensures Consistent(Some(cfg), rounds[id := round], submissions, pool[id := account], submitters[id := []])
  {
    var rs, ss := rounds[id := round], submitters[id := []];
    forall x | x in rs
      ensures RoundAgrees(rs[x], pool[id := account][x], submissions, x, ss[x])
    {
      if x != id {
        assert RoundAgrees(rounds[x], pool[x], submissions, x, submitters[x]);
      }
    }
  }

  /** Listing a new submitter keeps the submissions and the lists in step. */
  lemma SubmitKeepsLists(submissions: map<SubmissionKey, Submission>, submitters: map<RoundId, seq<Address>>,
                         key: SubmissionKey, submission: Submission,
                         ns: map<SubmissionKey, Submission>, nl: map<RoundId, seq<Address>>)
    requires SubmittersMatch(submissions, submitters) && key !in submissions && key.roundId in submitters
    requires ns == submissions[key := submission] && nl == submitters[key.roundId := submitters[key.roundId] + [key.player]]
    ensures key.player !in submitters[key.roundId]
    ensures SubmittersMatch(ns, nl)
  {
    var id, ps := key.roundId, submitters[key.roundId];
    NoDuplicatesAppend(ps, key.player);
    assert NoDuplicates(nl[id]);
    forall k | k in ns
      ensures k.roundId in nl && k.player in nl[k.roundId]
    {
      if k != key && k.roundId == id {
        assert k.player in ps;
      }
    }
    forall x, i | x in nl && 0 <= i < |nl[x]|
      ensures SubmissionKey(x, nl[x][i]) in ns
    {
      if x == id && i < |ps| {
        assert nl[x][i] == ps[i];
      }
    }
  }

  /** Changing a submission to another round leaves a round's agreement intact. */
  lemma OtherRoundAgrees(round: RoundData, account: PoolAccount, submissions: map<SubmissionKey, Submission>,
                         id: RoundId, ps: seq<Address>, key: SubmissionKey, submission: Submission,
                         ns: map<SubmissionKey, Submission>)
    requires RoundAgrees(round, account, submissions, id, ps) && key.roundId != id
    requires ns == submissions[key := submission]
    ensures RoundAgrees(round, account, ns, id, ps)
  {
    CountsFrame(ns, submissions, id, ps);
  }

  /** The round a new submission goes to stays in step with its list once
      the submitter is appended and the answer judged. */
  lemma JudgedRoundAgrees(round: RoundData, account: PoolAccount, submissions: map<SubmissionKey, Submission>,
                          ps: seq<Address>, key: SubmissionKey, submission: Submission, ns: map<SubmissionKey, Submission>)
    requires RoundAgrees(round, account, submissions, key.roundId, ps) && round.status == Open
    requires key.player !in ps && !submission.claimed && ns == submissions[key := submission]
    ensures RoundAgrees(Judged(round, submission.correct), account, ns, key.roundId, ps + [key.player])
  {
    var id, qs := key.roundId, ps + [key.player];
    CountsFrame(ns, submissions, id, ps);
    assert qs[..|ps|] == ps;
    assert SubmissionOf(ns, id, key.player) == Some(submission);
  }

  /** Adding a new submitter to an open round, counted as a winner exactly
      when correct, keeps every round in step with its list. */
  lemma SubmitKeepsAgreement(rounds: map<RoundId, RoundData>, submissions: map<SubmissionKey, Submission>,
                             pool: map<RoundId, PoolAccount>, submitters: map<RoundId, seq<Address>>,
                             key: SubmissionKey, submission: Submission, newRound: RoundData,
                             rs: map<RoundId, RoundData>, ns: map<SubmissionKey, Submission>, nl: map<RoundId, seq<Address>>)
    requires rounds.Keys == submitters.Keys && rounds.Keys == pool.Keys && AllRoundsAgree(rounds, pool, submissions, submitters)
    requires key.roundId in rounds && rounds[key.roundId].status == Open && !submission.claimed
    requires key.player !in submitters[key.roundId]
    requires newRound == Judged(rounds[key.roundId], submission.correct)
    requires rs == rounds[key.roundId := newRound] && ns == submissions[key := submission]
    requires nl == submitters[key.roundId := submitters[key.roundId] + [key.player]]
    ensures rs.Keys == nl.Keys && rs.Keys == pool.Keys && AllRoundsAgree(rs, pool, ns, nl)
  {
    var id := key.roundId;
    assert RoundAgrees(rounds[id], pool[id], submissions, id, submitters[id]);
    JudgedRoundAgrees(rounds[id], pool[id], submissions, submitters[id], key, submission, ns);
    forall x | x in rs
      ensures RoundAgrees(rs[x], pool[x], ns, x, nl[x])
    {
      if x != id {
        assert RoundAgrees(rounds[x], pool[x], submissions, x, submitters[x]);
        OtherRoundAgrees(rounds[x], pool[x], submissions, x, submitters[x], key, submission, ns);
      }
    }
  }

  /** Recording a new, unclaimed submission in an open round, and counting it
      as a win exactly when it is correct, keeps the invariant. */
  lemma SubmitKeepsConsistent(cfg: Config, rounds: map<RoundId, RoundData>, submissions: map<SubmissionKey, Submission>,
                              pool: map<RoundId, PoolAccount>, submitters: map<RoundId, seq<Address>>,
                              key: SubmissionKey, submission: Submission, newRound: RoundData,
                              rs: map<RoundId, RoundData>, ns: map<SubmissionKey, Submission>, nl: map<RoundId, seq<Address>>)
    requires Consistent(Some(cfg), rounds, submissions, pool, submitters)
    requires key.roundId in rounds && rounds[key.roundId].status == Open && key !in submissions && !submission.claimed
    requires newRound == Judged(rounds[key.roundId], submission.correct)
    requires newRound.winnerCount <= U32_MAX
    requires rs == rounds[key.roundId := newRound] && ns == submissions[key := submission]
    requires nl == submitters[key.roundId := submitters[key.roundId] + [key.player]]
    ensures Consistent(Some(cfg), rs, ns, pool, nl)
  {
    SubmitKeepsLists(submissions, submitters, key, submission, ns, nl);
    SubmitKeepsAgreement(rounds, submissions, pool, submitters, key, submission, newRound, rs, ns, nl);
  }

  /** Finalizing an open round with the payout derived from its winners, and
      releasing the reward when there are none, keeps the invariant. */
  lemma FinalizeKeepsConsistent(cfg: Config, rounds: map<RoundId, RoundData>, submissions: map<SubmissionKey, Submission>,
                                pool: map<RoundId, PoolAccount>, submitters: map<RoundId, seq<Address>>,
                                id: RoundId, finalized: RoundData, account: PoolAccount,
                                rs: map<RoundId, RoundData>, np: map<RoundId, PoolAccount>)
    requires Consistent(Some(cfg), rounds, submissions, pool, submitters)
    requires id in rounds && rounds[id].status == Open
    requires finalized == rounds[id].(status := Finalized,
                                      payoutPerWinner := PayoutPerWinner(rounds[id].rewardAmount, rounds[id].winnerCount))
    requires account == if rounds[id].winnerCount == 0 then pool[id].(released := rounds[id].rewardAmount) else pool[id]
    requires rs == rounds[id := finalized] && np == pool[id := account]
    ensures Consistent(Some(cfg), rs, submissions, np, submitters)
  {
    FinalizeKeepsAgreement(rounds, submissions, pool, submitters, id, finalized, account, rs, np);
  }

  /** Finalizing one open round keeps every round in step with its list. */
  lemma FinalizeKeepsAgreement(rounds: map<RoundId, RoundData>, submissions: map<SubmissionKey, Submission>,
                               pool: map<RoundId, PoolAccount>, submitters: map<RoundId, seq<Address>>,
                               id: RoundId, finalized: RoundData, account: PoolAccount,
                               rs: map<RoundId, RoundData>, np: map<RoundId, PoolAccount>)
    requires rounds.Keys == submitters.Keys && rounds.Keys == pool.Keys && AllRoundsAgree(rounds, pool, submissions, submitters)
    requires id in rounds && rounds[id].status == Open
    requires finalized == rounds[id].(status := Finalized,
                                      payoutPerWinner := PayoutPerWinner(rounds[id].rewardAmount, rounds[id].winnerCount))
    requires account == if rounds[id].winnerCount == 0 then pool[id].(released := rounds[id].rewardAmount) else pool[id]
    requires rs == rounds[id := finalized] && np == pool[id := account]
    ensures AllRoundsAgree(rs, np, submissions, submitters)
  {
    assert RoundAgrees(rounds[id], pool[id], submissions, id, submitters[id]);
    forall x | x in rs
      ensures RoundAgrees(rs[x], np[x], submissions, x, submitters[x])
    {
      if x != id {
        assert RoundAgrees(rounds[x], pool[x], submissions, x, submitters[x]);
      }
    }
  }

  /** Marking a listed submission of a finalized round claimed, and
      recording one more payout with the pool, keeps every round in step. */
  lemma ClaimKeepsAgreement(rounds: map<RoundId, RoundData>, submissions: map<SubmissionKey, Submission>,
                            pool: map<RoundId, PoolAccount>, submitters: map<RoundId, seq<Address>>, key: SubmissionKey,
                            ns: map<SubmissionKey, Submission>, np: map<RoundId, PoolAccount>)
    requires rounds.Keys == submitters.Keys && rounds.Keys == pool.Keys && AllRoundsAgree(rounds, pool, submissions, submitters)
    requires key.roundId in rounds && rounds[key.roundId].status == Finalized
    requires NoDuplicates(submitters[key.roundId]) && key.player in submitters[key.roundId]
    requires key in submissions && !submissions[key].claimed
    requires ns == submissions[key := submissions[key].(claimed := true)]
    requires np == pool[key.roundId := pool[key.roundId].(paid := pool[key.roundId].paid + rounds[key.roundId].payoutPerWinner)]
    ensures AllRoundsAgree(rounds, np, ns, submitters)
  {
    var id, ps := key.roundId, submitters[key.roundId];
    ClaimAddsOne(submissions, id, ps, key.player);
    var round := rounds[id];
    assert RoundAgrees(round, pool[id], submissions, id, ps);
    assert round.payoutPerWinner * (CountClaimed(submissions, id, ps) + 1)
        == round.payoutPerWinner * CountClaimed(submissions, id, ps) + round.payoutPerWinner;
    forall x | x in rounds
      ensures RoundAgrees(rounds[x], np[x], ns, x, submitters[x])
    {
      if x != id {
        assert RoundAgrees(rounds[x], pool[x], submissions, x, submitters[x]);
        OtherRoundAgrees(rounds[x], pool[x], submissions, x, submitters[x], key, ns[key], ns);
      }
    }
  }

  /** Claiming a correct, unclaimed submission of a finalized round, and
      recording one more payout with the pool, keeps the invariant. */
  lemma ClaimKeepsConsistent(cfg: Config, rounds: map<RoundId, RoundData>, submissions: map<SubmissionKey, Submission>,
                             pool: map<RoundId, PoolAccount>, submitters: map<RoundId, seq<Address>>, key: SubmissionKey,
                             ns: map<SubmissionKey, Submission>, np: map<RoundId, PoolAccount>)
    requires Consistent(Some(cfg), rounds, submissions, pool, submitters)
    requires key.roundId in rounds && rounds[key.roundId].status == Finalized
    requires key in submissions && !submissions[key].claimed && submissions[key].correct
    requires ns == submissions[key := submissions[key].(claimed := true)]
    requires np == pool[key.roundId := pool[key.roundId].(paid := pool[key.roundId].paid + rounds[key.roundId].payoutPerWinner)]
    ensures Consistent(Some(cfg), rounds, ns, np, submitters)
  {
    assert NoDuplicates(submitters[key.roundId]);
    ClaimKeepsAgreement(rounds, submissions, pool, submitters, key, ns, np);
  }
}
