/** The referral system (contracts/referral-system): a once-only
    referee → referrer graph with no self-referral, basis-point rewards
    credited to the referrer of a user on each qualifying event, and a
    claim that hands out and zeroes the pending balance. */
module Referral {
  import opened Common
  import Shared

  /** 10 000 basis points make 100 %. */
  const BASIS_POINTS: int := 10_000
  /** The reward rate `init` installs: 5 %. */
  const DEFAULT_REWARD_BPS: int := 500

  datatype Error =
    | AlreadyInitialized
    | NotInitialized
    | NotAuthorized
    | InvalidAmount
    | AlreadyReferred
    | SelfReferral
    | ReferrerNotRegistered
    | NoPendingRewards
    | AlreadyClaimed
    | InvalidEventType
    | Overflow

  /** The kinds of qualifying action; the kind does not affect the reward. */
  datatype EventType = GamePlayed | Deposit | PrizeClaimed

  /** Per-user record: who referred the user, whom the user referred, and the
      user's lifetime and still-unclaimed referral earnings. */
  datatype ReferralState = ReferralState(
    referrer: Address,
    referees: seq<Address>,
    totalEarned: int,
    pendingReward: int,
    eventCount: nat)

  /** `calculate_reward`: `amount * bps / 10 000` with a checked multiplication
      and a checked division that rounds toward zero. */
  function CalculateReward(amount: int, bps: int): (r: Result<int, Error>)
    requires InI128(amount) && 0 <= bps <= U32_MAX
    ensures r.Err? <==> !InI128(amount * bps)
    ensures r.Err? ==> r.error == Overflow
    ensures r.Ok? && amount >= 0 ==>
      0 <= r.value && r.value * BASIS_POINTS <= amount * bps < r.value * BASIS_POINTS + BASIS_POINTS
  {
    match CheckedMul(amount, bps)
    case None => Err(Overflow)
    case Some(scaled) =>
      TruncDivBounds(scaled, BASIS_POINTS);
      match CheckedDiv(scaled, BASIS_POINTS)
      case None => Err(Overflow)
      case Some(reward) => Ok(reward)
  }

  /** The referral reward is the platform fee formula of `calculate_fee`
      applied to the event amount, whatever its sign. */
  lemma RewardIsPlatformFee(amount: int, bps: int)
    requires InI128(amount) && 0 <= bps <= U32_MAX && InI128(amount * bps)
    ensures CalculateReward(amount, bps) == Ok(Shared.CalculateFee(amount, bps))
  {
    var scaled := amount * bps;
    assert CheckedMul(amount, bps) == Some(scaled);
    assert CheckedDiv(scaled, BASIS_POINTS) == Some(TruncDiv(scaled, BASIS_POINTS));
  }

  /** At a rate of at most 100 % a positive event earns between nothing and its amount. */
  lemma RewardWithinAmount(amount: int, bps: int)
    requires 0 < amount && InI128(amount) && 0 <= bps <= BASIS_POINTS && InI128(amount * bps)
    ensures CalculateReward(amount, bps).Ok?
    ensures 0 <= CalculateReward(amount, bps).value <= amount
  {
    Shared.FeeWithinAmount(amount, bps);
    RewardIsPlatformFee(amount, bps);
  }

  /** Scenario from the test suite: 10 000 at the default 5 % earns 500. */
  lemma DefaultRewardExample()
    ensures CalculateReward(10_000, DEFAULT_REWARD_BPS) == Ok(500)
  {
  }

  /** The record `unwrap_or` starts from when a user has none yet. */
  function Fresh(referrer: Address): ReferralState {
    ReferralState(referrer, [], 0, 0, 0)
  }

  function StateOr(states: map<Address, ReferralState>, u: Address, referrer: Address): ReferralState {
    if u in states then states[u] else Fresh(referrer)
  }

  /** `user`'s record once `referrer` is recorded as the one who referred it. */
  function Referred(states: map<Address, ReferralState>, user: Address, referrer: Address): (s: ReferralState)
    ensures s.referrer == referrer
    ensures user in states ==>
      && s.referees == states[user].referees
      && s.pendingReward == states[user].pendingReward
      && s.totalEarned == states[user].totalEarned
      && s.eventCount == states[user].eventCount
    ensures user !in states ==> s == ReferralState(referrer, [], 0, 0, 0)
  {
    StateOr(states, user, referrer).(referrer := referrer)
  }

  /** `referrer`'s record once `user` is appended to its referees. */
  function WithReferee(states: map<Address, ReferralState>, referrer: Address, user: Address): ReferralState {
    var s := StateOr(states, referrer, referrer);
    s.(referees := s.referees + [user])
  }

  /** `s` after one rewarded event. */
  function Credited(s: ReferralState, reward: int): ReferralState {
    s.(pendingReward := s.pendingReward + reward, totalEarned := s.totalEarned + reward, eventCount := s.eventCount + 1)
  }

  /** A user's accounts balance: what was claimed plus what is pending is what
      was ever earned, and the pending part is never negative. */
  predicate Accounted(s: ReferralState, claimed: int) {
    && 0 <= s.pendingReward <= s.totalEarned
    && InI128(s.totalEarned)
    && s.eventCount <= U64_MAX
    && claimed + s.pendingReward == s.totalEarned
  }

  /** The referees lists are exactly the inverse of the referee → referrer
      map, without repetitions. */
  ghost predicate GraphAgrees(states: map<Address, ReferralState>, referredBy: map<Address, Address>) {
    && (forall u :: u in referredBy ==>
          && u != referredBy[u]
          && u in states && states[u].referrer == referredBy[u]
          && referredBy[u] in states && u in states[referredBy[u]].referees)
    && (forall r, i :: r in states && 0 <= i < |states[r].referees| ==>
          states[r].referees[i] in referredBy && referredBy[states[r].referees[i]] == r)
    && (forall r :: r in states ==> NoDuplicates(states[r].referees))
  }

  /** The invariant of the contract's storage; `claimed` is the ghost record
      of what each user has claimed so far. */
  ghost predicate Consistent(admin: Option<Address>, rewardBps: int, states: map<Address, ReferralState>,
                             referredBy: map<Address, Address>, claimed: map<Address, int>) {
    && (admin.None? ==> states == map[] && referredBy == map[])
    && 0 <= rewardBps <= BASIS_POINTS
    && claimed.Keys <= states.Keys
    && (forall u :: u in states ==> Accounted(states[u], BalanceOf(claimed, u)))
    && GraphAgrees(states, referredBy)
  }

  class Referrals {
    /** `Admin`: present once `init` has run. */
    var admin: Option<Address>
    var rewardContract: Address
    /** `RewardBps`, a `u32`. */
    var rewardBps: int
    /** `State(user)`. */
    var states: map<Address, ReferralState>
    /** `ReferredBy(user)`. */
    var referredBy: map<Address, Address>
    /** What each user has claimed so far. */
    ghost var claimed: map<Address, int>

    ghost predicate Valid()
      reads this
    {
      Consistent(admin, rewardBps, states, referredBy, claimed)
    }

    constructor ()
      ensures Valid()
      ensures admin == None && states == map[] && referredBy == map[]
    {
      admin := None;
      rewardContract := 0;
      rewardBps := 0;
      states := map[];
      referredBy := map[];
      claimed := map[];
    }

    /** `init`: stores the admin and the reward contract and the default 5 % rate, once. */
    method Init(newAdmin: Address, newRewardContract: Address) returns (r: Result<(), Error>)
      requires Valid()
      modifies this
      ensures Valid()
      ensures states == old(states) && referredBy == old(referredBy)
      ensures old(admin).Some? ==> r == Err(AlreadyInitialized) && unchanged(this)
      ensures old(admin).None? ==>
        && r == Ok(())
        && admin == Some(newAdmin) && rewardContract == newRewardContract && rewardBps == DEFAULT_REWARD_BPS
    {
      if admin.Some? {
        return Err(AlreadyInitialized);
      }
      admin := Some(newAdmin);
      rewardContract := newRewardContract;
      rewardBps := DEFAULT_REWARD_BPS;
      r := Ok(());
    }

    /** `require_admin`: the contract is initialised and `caller` is its admin. */
    function AdminCheck(caller: Address): (r: Result<(), Error>)
      reads this
      ensures r.Ok? <==> admin == Some(caller)
      ensures admin.None? ==> r == Err(NotInitialized)
      ensures admin.Some? && admin.value != caller ==> r == Err(NotAuthorized)
    {
      if admin.None? then Err(NotInitialized)
      else if caller != admin.value then Err(NotAuthorized)
      else Ok(())
    }

    /** `set_reward_bps`: the admin changes the rate to at most 100 %. */
    method SetRewardBps(caller: Address, bps: int) returns (r: Result<(), Error>)
      requires Valid()
      requires 0 <= bps <= U32_MAX
      modifies this
      ensures Valid()
      ensures admin == old(admin) && rewardContract == old(rewardContract)
      ensures states == old(states) && referredBy == old(referredBy)
      ensures old(AdminCheck(caller)).Err? ==> r == old(AdminCheck(caller)) && rewardBps == old(rewardBps)
      ensures old(AdminCheck(caller)).Ok? && bps > BASIS_POINTS ==> r == Err(InvalidAmount) && rewardBps == old(rewardBps)
      ensures r.Ok? <==> old(AdminCheck(caller)).Ok? && bps <= BASIS_POINTS
      ensures r.Ok? ==> rewardBps == bps
    {
      r := AdminCheck(caller);
      if r.Err? {
        return;
      }
      if bps > BASIS_POINTS {
        return Err(InvalidAmount);
      }
      rewardBps := bps;
    }

    /** `set_reward_contract`: the admin replaces the funding address. */
    method SetRewardContract(caller: Address, newRewardContract: Address) returns (r: Result<(), Error>)
      requires Valid()
      modifies this
      ensures Valid()
      ensures admin == old(admin) && rewardBps == old(rewardBps)
      ensures states == old(states) && referredBy == old(referredBy)
      ensures r == old(AdminCheck(caller))
      ensures r.Ok? ==> rewardContract == newRewardContract
      ensures r.Err? ==> rewardContract == old(rewardContract)
    {
      r := AdminCheck(caller);
      if r.Err? {
        return;
      }
      rewardContract := newRewardContract;
    }

    /** `register_referrer`: records, once, that `referrer` referred `user`. */
    method RegisterReferrer(user: Address, referrer: Address) returns (r: Result<(), Error>)
      requires Valid()
      modifies this
      ensures Valid()
      ensures admin == old(admin) && rewardBps == old(rewardBps) && rewardContract == old(rewardContract)
      ensures old(admin).None? ==> r == Err(NotInitialized)
      ensures old(admin).Some? && user == referrer ==> r == Err(SelfReferral)
      ensures old(admin).Some? && user != referrer && user in old(referredBy) ==> r == Err(AlreadyReferred)
      ensures r.Ok? <==> old(admin).Some? && user != referrer && user !in old(referredBy)
      ensures r.Err? ==> states == old(states) && referredBy == old(referredBy)
      ensures r.Ok? ==>
        && referredBy == old(referredBy)[user := referrer]
        && states == old(states)[user := Referred(old(states), user, referrer)]
                                [referrer := WithReferee(old(states), referrer, user)]
    {
      if admin.None? {
        return Err(NotInitialized);
      }
      if user == referrer {
        return Err(SelfReferral);
      }
      if user in referredBy {
        return Err(AlreadyReferred);
      }
      var newStates := states[user := Referred(states, user, referrer)][referrer := WithReferee(states, referrer, user)];
      RegisterKeepsConsistent(admin.value, rewardBps, states, referredBy, claimed, user, referrer, newStates);
      referredBy := referredBy[user := referrer];
      states := newStates;
      r := Ok(());
    }

    /** `record_referral_event`: credits the reward for an event of `user`
        to `user`'s referrer. */
    method RecordReferralEvent(caller: Address, user: Address, eventType: EventType, amount: int)
      returns (r: Result<(), Error>)
      requires Valid()
      requires InI128(amount)
      modifies this
      ensures Valid()
      ensures admin == old(admin) && rewardBps == old(rewardBps) && rewardContract == old(rewardContract)
      ensures referredBy == old(referredBy)
      ensures old(AdminCheck(caller)).Err? ==> r == old(AdminCheck(caller))
      ensures old(AdminCheck(caller)).Ok? && amount <= 0 ==> r == Err(InvalidAmount)
      ensures old(AdminCheck(caller)).Ok? && 0 < amount && user !in old(referredBy) ==> r == Err(ReferrerNotRegistered)
      ensures old(AdminCheck(caller)).Ok? && 0 < amount && user in old(referredBy) ==>
        var s := StateOr(old(states), old(referredBy)[user], old(referredBy)[user]);
        var reward := CalculateReward(amount, old(rewardBps));
        (r.Ok? <==> reward.Ok? && InI128(s.pendingReward + reward.value) && InI128(s.totalEarned + reward.value)
                    && s.eventCount + 1 <= U64_MAX)
      ensures r.Err? ==> states == old(states)
      ensures r.Ok? ==>
        var referrer := old(referredBy)[user];
        && old(AdminCheck(caller)).Ok? && 0 < amount && user in old(referredBy)
        && CalculateReward(amount, old(rewardBps)).Ok?
        && states == old(states)[referrer := Credited(StateOr(old(states), referrer, referrer),
                                                      CalculateReward(amount, old(rewardBps)).value)]
      ensures r.Err? ==> r.error != Overflow || user in old(referredBy)
    {
      r := AdminCheck(caller);
      if r.Err? {
        return;
      }
      if amount <= 0 {
        return Err(InvalidAmount);
      }
      if user !in referredBy {
        return Err(ReferrerNotRegistered);
      }
      var referrer := referredBy[user];
      var reward := CalculateReward(amount, rewardBps);
      if reward.Err? {
        return Err(reward.error);
      }
      var s := StateOr(states, referrer, referrer);
      var pending := CheckedAdd(s.pendingReward, reward.value);
      if pending.None? {
        return Err(Overflow);
      }
      var earned := CheckedAdd(s.totalEarned, reward.value);
      if earned.None? {
        return Err(Overflow);
      }
      if s.eventCount + 1 > U64_MAX {
        return Err(Overflow);
      }
      RewardWithinAmount(amount, rewardBps);
      var newStates := states[referrer := Credited(s, reward.value)];
      RecordKeepsConsistent(admin.value, rewardBps, states, referredBy, claimed, referrer, reward.value, newStates);
      states := newStates;
    }

    /** `claim_referral_reward`: hands out and zeroes `user`'s pending reward. */
    method ClaimReferralReward(user: Address) returns (r: Result<int, Error>)
      requires Valid()
      modifies this
      ensures Valid()
      ensures admin == old(admin) && rewardBps == old(rewardBps) && rewardContract == old(rewardContract)
      ensures referredBy == old(referredBy)
      ensures old(admin).None? ==> r == Err(NotInitialized)
      ensures old(admin).Some? && user !in old(states) ==> r == Err(ReferrerNotRegistered)
      ensures old(admin).Some? && user in old(states) && old(states)[user].pendingReward <= 0 ==> r == Err(NoPendingRewards)
      ensures r.Ok? <==> old(admin).Some? && user in old(states) && old(states)[user].pendingReward > 0
      ensures r.Err? ==> states == old(states) && claimed == old(claimed)
      ensures r.Ok? ==>
        && r.value == old(states)[user].pendingReward
        && states == old(states)[user := old(states)[user].(pendingReward := 0)]
        && BalanceOf(claimed, user) == BalanceOf(old(claimed), user) + r.value
    {
      if admin.None? {
        return Err(NotInitialized);
      }
      if user !in states {
        return Err(ReferrerNotRegistered);
      }
      var s := states[user];
      if s.pendingReward <= 0 {
        return Err(NoPendingRewards);
      }
      var amount := s.pendingReward;
      var newStates := states[user := s.(pendingReward := 0)];
      ghost var newClaimed := claimed[user := BalanceOf(claimed, user) + amount];
      ClaimKeepsConsistent(admin.value, rewardBps, states, referredBy, claimed, user, newStates, newClaimed);
      states, claimed := newStates, newClaimed;
      r := Ok(amount);
    }

    /** `referral_state`. */
    function GetReferralState(user: Address): (r: Result<ReferralState, Error>)
      reads this
      ensures admin.None? ==> r == Err(NotInitialized)
      ensures admin.Some? && user !in states ==> r == Err(ReferrerNotRegistered)
      ensures r.Ok? <==> admin.Some? && user in states
      ensures r.Ok? ==> r.value == states[user]
    {
      if admin.None? then Err(NotInitialized)
      else if user !in states then Err(ReferrerNotRegistered)
      else Ok(states[user])
    }

    /** `get_referrer`. */
    function GetReferrer(user: Address): (r: Option<Address>)
      reads this
      ensures r.Some? <==> user in referredBy
      ensures r.Some? ==> r.value == referredBy[user]
    {
      if user in referredBy then Some(referredBy[user]) else None
    }

    /** Every user's earnings are split between what it claimed and what is
        still pending, and the pending part never exceeds the lifetime total. */
    lemma PendingWithinEarned(user: Address)
      requires Valid() && user in states
      ensures 0 <= states[user].pendingReward <= states[user].totalEarned
      ensures BalanceOf(claimed, user) + states[user].pendingReward == states[user].totalEarned
    {
    }

    /** A registered referee never referred itself, and appears in its
        referrer's list of referees. */
    lemma RefereeListed(user: Address)
      requires Valid() && user in referredBy
      ensures referredBy[user] != user
      ensures referredBy[user] in states && user in states[referredBy[user]].referees
    {
    }
  }

  /** Registration creates only empty accounts and changes no counter. */
  lemma RegisterKeepsAccounts(states: map<Address, ReferralState>, claimed: map<Address, int>,
                              user: Address, referrer: Address, ns: map<Address, ReferralState>)
    requires claimed.Keys <= states.Keys
    requires forall u :: u in states ==> Accounted(states[u], BalanceOf(claimed, u))
    requires ns == states[user := Referred(states, user, referrer)][referrer := WithReferee(states, referrer, user)]
    ensures claimed.Keys <= ns.Keys
    ensures forall u :: u in ns ==> Accounted(ns[u], BalanceOf(claimed, u))
  {
    forall u | u in ns
      ensures Accounted(ns[u], BalanceOf(claimed, u))
    {
      if u != user && u != referrer {
        assert ns[u] == states[u];
      }
    }
  }

  /** Recording `user` → `referrer` and appending `user` to `referrer`'s
      referees keeps the lists the exact inverse of the map. */
  lemma RegisterKeepsGraph(states: map<Address, ReferralState>, referredBy: map<Address, Address>,
                           user: Address, referrer: Address, ns: map<Address, ReferralState>, nr: map<Address, Address>)
    requires GraphAgrees(states, referredBy)
    requires user != referrer && user !in referredBy
    requires ns == states[user := Referred(states, user, referrer)][referrer := WithReferee(states, referrer, user)]
    requires nr == referredBy[user := referrer]
    ensures GraphAgrees(ns, nr)
  {
    assert user !in StateOr(states, referrer, referrer).referees;
    forall u | u in nr
      ensures u != nr[u] && u in ns && ns[u].referrer == nr[u] && nr[u] in ns && u in ns[nr[u]].referees
    {
      if u != user {
        var p := referredBy[u];
        assert u in states[p].referees;
        if p == referrer {
          assert states[p].referees <= ns[p].referees;
        }
      }
    }
    forall x, i | x in ns && 0 <= i < |ns[x].referees|
      ensures ns[x].referees[i] in nr && nr[ns[x].referees[i]] == x
    {
      if x == referrer && i == |ns[x].referees| - 1 {
        assert ns[x].referees[i] == user;
      } else {
        assert x in states && ns[x].referees[i] == states[x].referees[i];
      }
    }
    forall x | x in ns
      ensures NoDuplicates(ns[x].referees)
    {
      if x == referrer {
        NoDuplicatesAppend(StateOr(states, referrer, referrer).referees, user);
      }
    }
  }

  /** Registering a new, non-self referral keeps the invariant. */
  lemma RegisterKeepsConsistent(admin: Address, rewardBps: int, states: map<Address, ReferralState>,
                                referredBy: map<Address, Address>, claimed: map<Address, int>,
                                user: Address, referrer: Address, ns: map<Address, ReferralState>)
    requires Consistent(Some(admin), rewardBps, states, referredBy, claimed)
    requires user != referrer && user !in referredBy
    requires ns == states[user := Referred(states, user, referrer)][referrer := WithReferee(states, referrer, user)]
    ensures Consistent(Some(admin), rewardBps, ns, referredBy[user := referrer], claimed)
  {
    RegisterKeepsAccounts(states, claimed, user, referrer, ns);
    RegisterKeepsGraph(states, referredBy, user, referrer, ns, referredBy[user := referrer]);
  }

  /** Changing only counters, never a referrer or a referees list, keeps the graph. */
  lemma CountersKeepGraph(states: map<Address, ReferralState>, referredBy: map<Address, Address>,
                          ns: map<Address, ReferralState>)
    requires GraphAgrees(states, referredBy)
    requires ns.Keys == states.Keys
    requires forall u :: u in ns ==> ns[u].referrer == states[u].referrer && ns[u].referees == states[u].referees
    ensures GraphAgrees(ns, referredBy)
  {
    forall x, i | x in ns && 0 <= i < |ns[x].referees|
      ensures ns[x].referees[i] in referredBy && referredBy[ns[x].referees[i]] == x
    {
      assert ns[x].referees == states[x].referees;
    }
  }

  /** Crediting a referrer with a non-negative reward that keeps its totals in
      range keeps the invariant. */
  lemma RecordKeepsConsistent(admin: Address, rewardBps: int, states: map<Address, ReferralState>,
                              referredBy: map<Address, Address>, claimed: map<Address, int>,
                              referrer: Address, reward: int, ns: map<Address, ReferralState>)
    requires Consistent(Some(admin), rewardBps, states, referredBy, claimed)
    requires referrer in states && 0 <= reward
    requires InI128(states[referrer].totalEarned + reward) && states[referrer].eventCount + 1 <= U64_MAX
    requires ns == states[referrer := Credited(states[referrer], reward)]
    ensures Consistent(Some(admin), rewardBps, ns, referredBy, claimed)
  {
    forall u | u in ns
      ensures Accounted(ns[u], BalanceOf(claimed, u))
    {
      if u != referrer {
        assert ns[u] == states[u];
      }
    }
    CountersKeepGraph(states, referredBy, ns);
  }

  /** Moving a positive pending reward into the claimed record keeps the invariant. */
  lemma ClaimKeepsConsistent(admin: Address, rewardBps: int, states: map<Address, ReferralState>,
                             referredBy: map<Address, Address>, claimed: map<Address, int>, user: Address,
                             ns: map<Address, ReferralState>, nc: map<Address, int>)
    requires Consistent(Some(admin), rewardBps, states, referredBy, claimed)
    requires user in states
    requires ns == states[user := states[user].(pendingReward := 0)]
    requires nc == claimed[user := BalanceOf(claimed, user) + states[user].pendingReward]
    ensures Consistent(Some(admin), rewardBps, ns, referredBy, nc)
  {
    forall u | u in ns
      ensures Accounted(ns[u], BalanceOf(nc, u))
    {
      if u != user {
        assert ns[u] == states[u] && BalanceOf(nc, u) == BalanceOf(claimed, u);
      }
    }
    CountersKeepGraph(states, referredBy, ns);
  }
}
