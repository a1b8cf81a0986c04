/** Discovery yield: governor scaling, the vault cut, floored shares and the finder's bonus. */
module YieldOrchestration {
  import opened Prelude
  import opened Emission
  import opened Discovery
  import opened Credits
  import RaidVaults

  const RAID_VAULT_PERCENT := 20.0
  const FINDER_BONUS_PERCENT := 20.0

  // ----- The split of one discovery -----

  function VaultCut(total: real, vaultPercent: real): real {
    Floor(total * vaultPercent / 100.0)
  }

  function MinerPool(total: real, vaultPercent: real): real {
    total - VaultCut(total, vaultPercent)
  }

  /** A percentage of the pool before flooring. */
  function Part(pool: real, percent: real): real {
    pool * percent / 100.0
  }

  function BaseShare(pool: real, percent: real): real {
    Floor(Part(pool, percent))
  }

  function Bonus(baseShare: real, bonusPercent: real): real {
    Floor(baseShare * bonusPercent / 100.0)
  }

  function MinerAmount(pool: real, s: Share, finder: Wallet, bonusPercent: real): real {
    var baseShare := BaseShare(pool, s.percent);
    baseShare + (if s.wallet == finder then Bonus(baseShare, bonusPercent) else 0.0)
  }

  function SharePayouts(pool: real, shares: seq<Share>, finder: Wallet, bonusPercent: real): seq<Payout> {
    if shares == [] then []
    else
      var last := shares[|shares| - 1];
      var amount := MinerAmount(pool, last, finder, bonusPercent);
      SharePayouts(pool, shares[..|shares| - 1], finder, bonusPercent)
      + (if amount > 0.0 then [Payout(last.wallet, amount)] else [])
  }

  /** Without shares everything goes to the finder. */
  function MinerPayouts(pool: real, shares: seq<Share>, finder: Wallet, bonusPercent: real): seq<Payout> {
    if shares == [] then [Payout(finder, pool)] else SharePayouts(pool, shares, finder, bonusPercent)
  }

  /** What one discovery pays out, and what it puts into the vault. */
  function PaidFor(total: real, vaultPercent: real, shares: seq<Share>, finder: Wallet, bonusPercent: real): seq<Payout> {
    if total <= 0.0 then [] else MinerPayouts(MinerPool(total, vaultPercent), shares, finder, bonusPercent)
  }

  function VaultedFor(total: real, vaultPercent: real): real {
    if total <= 0.0 then 0.0 else Max(0.0, VaultCut(total, vaultPercent))
  }

  // ----- What each miner gets -----

  /** No two shares are the same wallet's. */
  ghost predicate OneShareEach(shares: seq<Share>) {
    forall i, j :: 0 <= i < j < |shares| ==> shares[i].wallet != shares[j].wallet
  }

  /** A share's floored percentage of the pool, with the floored bonus on it for the finder alone. */
  function Earned(pool: real, s: Share, finder: Wallet, bonusPercent: real): real {
    var baseShare := Floor(Part(pool, s.percent));
    Max(0.0, baseShare + if s.wallet == finder then Floor(Part(baseShare, bonusPercent)) else 0.0)
  }

  lemma BonusIs(baseShare: real, bonusPercent: real)
    ensures Bonus(baseShare, bonusPercent) == Floor(Part(baseShare, bonusPercent))
  {
  }

  lemma EarnedIs(pool: real, s: Share, finder: Wallet, bonusPercent: real)
    ensures Earned(pool, s, finder, bonusPercent) == Max(0.0, MinerAmount(pool, s, finder, bonusPercent))
  {
    hide Part, Bonus, Floor;
    BonusIs(BaseShare(pool, s.percent), bonusPercent);
  }

  lemma SharePaidMore(pool: real, shares: seq<Share>, finder: Wallet, bonusPercent: real, w: Wallet)
    requires shares != []
    ensures var n := |shares| - 1;
            PaidTo(SharePayouts(pool, shares, finder, bonusPercent), w)
            == PaidTo(SharePayouts(pool, shares[..n], finder, bonusPercent), w)
               + (if shares[n].wallet == w then Earned(pool, shares[n], finder, bonusPercent) else 0.0)
  {
    hide MinerAmount, Earned, PaidTo;
    var n := |shares| - 1;
    var before, amount := SharePayouts(pool, shares[..n], finder, bonusPercent), MinerAmount(pool, shares[n], finder, bonusPercent);
    EarnedIs(pool, shares[n], finder, bonusPercent);
    PaidToMore(before, Payout(shares[n].wallet, amount), w);
    assert before + [] == before;
  }

  lemma {:induction false} NoShareNoPay(pool: real, shares: seq<Share>, finder: Wallet, bonusPercent: real, w: Wallet)
    requires forall i :: 0 <= i < |shares| ==> shares[i].wallet != w
    ensures PaidTo(SharePayouts(pool, shares, finder, bonusPercent), w) == 0.0
  {
    hide MinerAmount, Earned;
    if shares != [] {
      NoShareNoPay(pool, shares[..|shares| - 1], finder, bonusPercent, w);
      SharePaidMore(pool, shares, finder, bonusPercent, w);
    }
  }

  lemma {:induction false} SharePaysOwner(pool: real, shares: seq<Share>, finder: Wallet, bonusPercent: real, i: nat)
    requires i < |shares| && OneShareEach(shares)
    ensures PaidTo(SharePayouts(pool, shares, finder, bonusPercent), shares[i].wallet)
            == Earned(pool, shares[i], finder, bonusPercent)
  {
    hide Earned, SharePayouts, PaidTo;
    var n := |shares| - 1;
    SharePaidMore(pool, shares, finder, bonusPercent, shares[i].wallet);
    if i < n {
      SharePaysOwner(pool, shares[..n], finder, bonusPercent, i);
    } else {
      NoShareNoPay(pool, shares[..n], finder, bonusPercent, shares[i].wallet);
    }
  }

  /**
   * What the payouts of a pool pay one wallet: what its share earns and nothing without one; the whole pool
   * to the finder when there are no shares.
   */
  ghost predicate PaysFairly(paid: real, w: Wallet, pool: real, shares: seq<Share>, finder: Wallet, bonusPercent: real) {
    && (forall i :: 0 <= i < |shares| && shares[i].wallet == w ==> paid == Earned(pool, shares[i], finder, bonusPercent))
    && (shares != [] && (forall i :: 0 <= i < |shares| ==> shares[i].wallet != w) ==> paid == 0.0)
    && (shares == [] ==> paid == if w == finder then pool else 0.0)
  }

  /** Each miner is paid what their own share earns, and only the finder the bonus. */
  lemma EachMinerGets(pool: real, shares: seq<Share>, finder: Wallet, bonusPercent: real, w: Wallet)
    requires OneShareEach(shares)
    ensures PaysFairly(PaidTo(MinerPayouts(pool, shares, finder, bonusPercent), w), w, pool, shares, finder, bonusPercent)
  {
    hide Earned, SharePayouts;
    if shares == [] {
      assert [Payout(finder, pool)][..0] == [];
    } else if forall i :: 0 <= i < |shares| ==> shares[i].wallet != w {
      NoShareNoPay(pool, shares, finder, bonusPercent, w);
    }
    forall i | 0 <= i < |shares| && shares[i].wallet == w
      ensures PaidTo(MinerPayouts(pool, shares, finder, bonusPercent), w) == Earned(pool, shares[i], finder, bonusPercent)
    {
      SharePaysOwner(pool, shares, finder, bonusPercent, i);
    }
  }

  /** The vault gets its floored percentage and no other vault changes. */
  lemma VaultGetsCut(m: map<AsteroidId, real>, asteroid: AsteroidId, total: real, vaultPercent: real, a: AsteroidId)
    requires vaultPercent >= 0.0
    ensures Held(RaidVaults.Credited(m, asteroid, VaultedFor(total, vaultPercent)), a)
            == Held(m, a) + (if a == asteroid && total > 0.0 then Floor(Part(total, vaultPercent)) else 0.0)
  {
    hide Floor;
    if total > 0.0 {
      PartAdds(total, vaultPercent, 0.0);
      CutIs(total, vaultPercent);
    }
  }

  lemma CutIs(total: real, vaultPercent: real)
    ensures VaultCut(total, vaultPercent) == Floor(Part(total, vaultPercent))
  {
  }

  /** A discovery's credits, wallet by wallet. */
  ghost predicate CreditsFairly(before: map<Wallet, real>, after: map<Wallet, real>, total: real, vaultPercent: real,
                                shares: seq<Share>, finder: Wallet, bonusPercent: real) {
    if total <= 0.0 then after == before
    else forall w :: PaysFairly(Held(after, w) - Held(before, w), w, total - Floor(total * vaultPercent / 100.0), shares,
                                finder, bonusPercent)
  }

  lemma DiscoveryCreditsFairly(before: map<Wallet, real>, total: real, vaultPercent: real, shares: seq<Share>,
                               finder: Wallet, bonusPercent: real)
    requires OneShareEach(shares)
    ensures CreditsFairly(before, CreditPayouts(before, PaidFor(total, vaultPercent, shares, finder, bonusPercent)), total,
                          vaultPercent, shares, finder, bonusPercent)
  {
    hide MinerPayouts, PaysFairly, PaidTo, Floor, OneShareEach, Held;
    var payouts := PaidFor(total, vaultPercent, shares, finder, bonusPercent);
    if total > 0.0 {
      forall w ensures PaysFairly(Held(CreditPayouts(before, payouts), w) - Held(before, w), w,
                                  total - Floor(total * vaultPercent / 100.0), shares, finder, bonusPercent) {
        CreditPayoutsHeld(before, payouts, w);
        EachMinerGets(total - Floor(total * vaultPercent / 100.0), shares, finder, bonusPercent, w);
      }
    }
  }

  // ----- The bonus never outgrows the vault cut -----

  function SumBases(pool: real, shares: seq<Share>): real {
    if shares == [] then 0.0 else SumBases(pool, shares[..|shares| - 1]) + BaseShare(pool, shares[|shares| - 1].percent)
  }

  lemma PartAdds(pool: real, a: real, b: real)
    ensures Part(pool, a + b) == Part(pool, a) + Part(pool, b)
    ensures Part(pool, 0.0) == 0.0 && Part(pool, 100.0) == pool
    ensures pool >= 0.0 && a >= 0.0 ==> Part(pool, a) >= 0.0
  {
  }

  lemma {:induction false} BasesWithinPart(pool: real, shares: seq<Share>)
    requires pool >= 0.0 && forall i :: 0 <= i < |shares| ==> shares[i].percent >= 0.0
    ensures 0.0 <= SumBases(pool, shares) <= Part(pool, SumPercent(shares))
  {
    hide Part;
    PartAdds(pool, 0.0, 0.0);
    if shares != [] {
      var n := |shares| - 1;
      BasesWithinPart(pool, shares[..n]);
      PartAdds(pool, SumPercent(shares[..n]), shares[n].percent);
      PartAdds(pool, shares[n].percent, 0.0);
    }
  }

  lemma BonusAdds(a: real, b: real)
    ensures Bonus(a, FINDER_BONUS_PERCENT) + Bonus(b, FINDER_BONUS_PERCENT) <= Bonus(a + b, FINDER_BONUS_PERCENT)
    ensures b >= 0.0 ==> Bonus(a, FINDER_BONUS_PERCENT) <= Bonus(a + b, FINDER_BONUS_PERCENT)
  {
    var x, y := a * FINDER_BONUS_PERCENT / 100.0, b * FINDER_BONUS_PERCENT / 100.0;
    assert (a + b) * FINDER_BONUS_PERCENT / 100.0 == x + y;
    FloorOfParts(x, y);
  }

  /** All bonuses together are at most one bonus on the sum of the base shares. */
  lemma {:induction false} PayoutsWithinBonus(pool: real, shares: seq<Share>, finder: Wallet)
    requires pool >= 0.0 && forall i :: 0 <= i < |shares| ==> shares[i].percent >= 0.0
    ensures var bases := SumBases(pool, shares);
            SumAmounts(SharePayouts(pool, shares, finder, FINDER_BONUS_PERCENT)) <= bases + Bonus(bases, FINDER_BONUS_PERCENT)
  {
    hide BaseShare, Bonus;
    if shares == [] {
      NoBonus();
    } else {
      var n := |shares| - 1;
      var last, bases := shares[n], SumBases(pool, shares[..n]);
      PayoutsWithinBonus(pool, shares[..n], finder);
      BaseNonNegative(pool, last.percent);
      BonusAdds(bases, BaseShare(pool, last.percent));
      OneMorePayout(pool, shares, finder);
    }
  }

  lemma NoBonus()
    ensures Bonus(0.0, FINDER_BONUS_PERCENT) == 0.0
  {
  }

  lemma BaseNonNegative(pool: real, percent: real)
    requires pool >= 0.0 && percent >= 0.0
    ensures BaseShare(pool, percent) >= 0.0
    ensures Bonus(BaseShare(pool, percent), FINDER_BONUS_PERCENT) >= 0.0
  {
    PartAdds(pool, percent, 0.0);
  }

  lemma OneMorePayout(pool: real, shares: seq<Share>, finder: Wallet)
    requires shares != [] && pool >= 0.0 && shares[|shares| - 1].percent >= 0.0
    ensures var n := |shares| - 1;
            SumAmounts(SharePayouts(pool, shares, finder, FINDER_BONUS_PERCENT))
            == SumAmounts(SharePayouts(pool, shares[..n], finder, FINDER_BONUS_PERCENT))
               + MinerAmount(pool, shares[n], finder, FINDER_BONUS_PERCENT)
  {
    var n := |shares| - 1;
    var amount := MinerAmount(pool, shares[n], finder, FINDER_BONUS_PERCENT);
    var before := SharePayouts(pool, shares[..n], finder, FINDER_BONUS_PERCENT);
    BaseNonNegative(pool, shares[n].percent);
    hide MinerAmount;
    SumAmountsAppend(before, Payout(shares[n].wallet, amount));
    assert before + [] == before;
  }

  lemma VaultCovers(total: real, vaultPercent: real)
    requires total >= 0.0 && FINDER_BONUS_PERCENT <= vaultPercent <= 100.0
    ensures 0.0 <= MinerPool(total, vaultPercent)
    ensures MinerPool(total, vaultPercent) + Bonus(MinerPool(total, vaultPercent), FINDER_BONUS_PERCENT) <= total
  {
    CutBounds(total, vaultPercent);
    FloorMonotone(total / 5.0, total * vaultPercent / 100.0);
    BonusOfRest(total, MinerPool(total, vaultPercent));
  }

  lemma CutBounds(total: real, vaultPercent: real)
    requires total >= 0.0 && FINDER_BONUS_PERCENT <= vaultPercent <= 100.0
    ensures total / 5.0 <= total * vaultPercent / 100.0 <= total
  {
    assert total * (vaultPercent - 20.0) >= 0.0;
    assert total * (100.0 - vaultPercent) >= 0.0;
  }

  lemma BonusOfRest(total: real, pool: real)
    requires total >= 0.0 && pool <= total - Floor(total / 5.0)
    ensures pool + Bonus(pool, FINDER_BONUS_PERCENT) <= total
  {
    assert pool * FINDER_BONUS_PERCENT / 100.0 == pool / 5.0;
    assert pool / 5.0 < Floor(total / 5.0) + 1.0;
  }

  /**
   * With a vault cut of at least the bonus, everything credited for a discovery, the finder's bonus
   * included, stays within its scaled yield, whoever finds and however the shares fall.
   */
  lemma CreditsWithinYield(total: real, vaultPercent: real, shares: seq<Share>, finder: Wallet)
    requires FINDER_BONUS_PERCENT <= vaultPercent <= 100.0
    requires shares == [] || FullShares(shares)
    ensures SumAmounts(PaidFor(total, vaultPercent, shares, finder, FINDER_BONUS_PERCENT)) <= Max(0.0, total)
  {
    hide MinerPool, Bonus, Part, SumAmounts;
    if total <= 0.0 {
      SumOfNone();
    } else {
      var pool := MinerPool(total, vaultPercent);
      VaultCovers(total, vaultPercent);
      BonusAdds(0.0, pool);
      NoBonus();
      if shares == [] {
        SumOfOne([Payout(finder, pool)]);
      } else {
        BasesWithinPart(pool, shares);
        PartAdds(pool, 100.0, 0.0);
        PayoutsWithinBonus(pool, shares, finder);
        BonusAdds(SumBases(pool, shares), pool - SumBases(pool, shares));
      }
    }
  }

  lemma SumOfNone()
    ensures SumAmounts([]) == 0.0
  {
  }

  /** Flooring keeps less than one token a miner back: the pool is paid out. */
  lemma {:induction false} PoolIsPaidOut(pool: real, shares: seq<Share>, finder: Wallet, n: real)
    requires pool >= 0.0 && n == |shares| as real && forall i :: 0 <= i < |shares| ==> shares[i].percent >= 0.0
    ensures SumAmounts(SharePayouts(pool, shares, finder, FINDER_BONUS_PERCENT)) >= Part(pool, SumPercent(shares)) - n
  {
    hide Part, Bonus, SharePayouts;
    if shares == [] {
      PartAdds(pool, 0.0, 0.0);
      NothingShared(pool, finder);
    } else {
      var k := |shares| - 1;
      PoolIsPaidOut(pool, shares[..k], finder, n - 1.0);
      PartAdds(pool, SumPercent(shares[..k]), shares[k].percent);
      BaseNonNegative(pool, shares[k].percent);
      OneMorePayout(pool, shares, finder);
    }
  }

  lemma NothingShared(pool: real, finder: Wallet)
    ensures SharePayouts(pool, [], finder, FINDER_BONUS_PERCENT) == []
  {
  }

  /** The bound holds for every whole yield exactly when the vault cut is at least the bonus. */
  lemma VaultMustCoverBonus(vaultPercent: real)
    requires 0.0 <= vaultPercent <= 100.0
    ensures (forall total, shares, finder :: total >= 0.0 && total == Floor(total) && FullShares(shares) ==>
               SumAmounts(PaidFor(total, vaultPercent, shares, finder, FINDER_BONUS_PERCENT)) <= total)
            <==> vaultPercent >= FINDER_BONUS_PERCENT
  {
    if vaultPercent >= FINDER_BONUS_PERCENT {
      forall total, shares, finder | total >= 0.0 && total == Floor(total) && FullShares(shares)
        ensures SumAmounts(PaidFor(total, vaultPercent, shares, finder, FINDER_BONUS_PERCENT)) <= total
      {
        CreditsWithinYield(total, vaultPercent, shares, finder);
      }
    } else {
      OverCredit(vaultPercent);
    }
  }

  /** A lone finder of a yield of 5 is credited 6. */
  lemma OverCredit(vaultPercent: real)
    requires 0.0 <= vaultPercent < FINDER_BONUS_PERCENT
    ensures FullShares([Share("finder", 100.0)])
    ensures SumAmounts(PaidFor(5.0, vaultPercent, [Share("finder", 100.0)], "finder", FINDER_BONUS_PERCENT)) == 6.0
  {
    hide SharePayouts, SumAmounts, VaultCut;
    assert [Share("finder", 100.0)][..0] == [];
    NoVaultCut(vaultPercent);
    LoneFinder();
    SumOfOne([Payout("finder", 6.0)]);
  }

  lemma NoVaultCut(vaultPercent: real)
    requires 0.0 <= vaultPercent < FINDER_BONUS_PERCENT
    ensures VaultCut(5.0, vaultPercent) == 0.0
  {
  }

  lemma LoneFinder()
    ensures SharePayouts(5.0, [Share("finder", 100.0)], "finder", FINDER_BONUS_PERCENT) == [Payout("finder", 6.0)]
  {
    assert [Share("finder", 100.0)][..0] == [];
    assert BaseShare(5.0, 100.0) == 5.0 && Bonus(5.0, 20.0) == 1.0;
  }

  // ----- The orchestrator in place -----

  class YieldOrchestrator {
    const governor: EmissionGovernor
    const raidVault: RaidVaults.RaidVault
    const accounts: YieldLedger
    const raidVaultPercent: real
    var totalDiscoveries: nat
    var totalDistributed: real

    ghost predicate Valid()
      reads this, governor
    {
      governor.Valid()
    }

    constructor (governor: EmissionGovernor, raidVault: RaidVaults.RaidVault, accounts: YieldLedger, vaultPercent: Option<real>)
      ensures this.governor == governor && this.raidVault == raidVault && this.accounts == accounts
      ensures raidVaultPercent == if vaultPercent.Some? then vaultPercent.value else RAID_VAULT_PERCENT
    {
      this.governor, this.raidVault, this.accounts := governor, raidVault, accounts;
      raidVaultPercent := if vaultPercent.Some? then vaultPercent.value else RAID_VAULT_PERCENT;
      totalDiscoveries, totalDistributed := 0, 0.0;
    }

    /** The share loop. */
    method BuildPayouts(pool: real, shares: seq<Share>, finder: Wallet, bonusPercent: real) returns (payouts: seq<Payout>)
      ensures payouts == MinerPayouts(pool, shares, finder, bonusPercent)
      ensures OneShareEach(shares) ==> forall w :: PaysFairly(PaidTo(payouts, w), w, pool, shares, finder, bonusPercent)
    {
      hide PaysFairly, OneShareEach, PaidTo;
      if OneShareEach(shares) {
        forall w ensures PaysFairly(PaidTo(MinerPayouts(pool, shares, finder, bonusPercent), w), w, pool, shares, finder, bonusPercent) {
          EachMinerGets(pool, shares, finder, bonusPercent, w);
        }
      }
      if shares == [] {
        return [Payout(finder, pool)];
      }
      payouts := [];
      for i := 0 to |shares|
        invariant payouts == SharePayouts(pool, shares[..i], finder, bonusPercent)
      {
        assert shares[..i + 1][..i] == shares[..i];
        var baseShare := BaseShare(pool, shares[i].percent);
        var bonus := if shares[i].wallet == finder then Bonus(baseShare, bonusPercent) else 0.0;
        if baseShare + bonus > 0.0 {
          payouts := payouts + [Payout(shares[i].wallet, baseShare + bonus)];
        }
      }
      assert shares[..|shares|] == shares;
    }

    /** Every payout becomes pending yield. */
    method RoutePayouts(payouts: seq<Payout>)
      modifies accounts, this`totalDistributed
      ensures accounts.pendingYield == CreditPayouts(old(accounts.pendingYield), payouts)
      ensures totalDistributed == old(totalDistributed) + SumAmounts(payouts)
    {
      for i := 0 to |payouts|
        invariant accounts.pendingYield == CreditPayouts(old(accounts.pendingYield), payouts[..i])
        invariant totalDistributed == old(totalDistributed) + SumAmounts(payouts[..i])
      {
        assert payouts[..i + 1][..i] == payouts[..i];
        accounts.AddPendingYield(payouts[i].wallet, payouts[i].amount);
        totalDistributed := totalDistributed + payouts[i].amount;
      }
      assert payouts[..|payouts|] == payouts;
    }

    /** The vault cut and the payouts of a positive yield. */
    method Distribute(asteroid: AsteroidId, finder: Wallet, shares: seq<Share>, total: real, bonusPercent: real)
      returns (payouts: seq<Payout>)
      requires total > 0.0
      modifies this`totalDistributed, raidVault, accounts
      ensures payouts == PaidFor(total, raidVaultPercent, shares, finder, bonusPercent)
      ensures accounts.pendingYield == CreditPayouts(old(accounts.pendingYield), payouts)
      ensures raidVault.balances
              == RaidVaults.Credited(old(raidVault.balances), asteroid, VaultedFor(total, raidVaultPercent))
    {
      hide CreditPayouts, MinerPayouts, VaultCut;
      var vaulted := VaultCut(total, raidVaultPercent);
      if vaulted > 0.0 {
        var _ := raidVault.Add(asteroid, vaulted);
      }
      payouts := BuildPayouts(total - vaulted, shares, finder, bonusPercent);
      RoutePayouts(payouts);
    }

    /**
     * A discovery: the gross yield is scaled, split, credited and recorded. `budget` is the live
     * backing budget, `bonus` the finder bonus asked for.
     */
    method ProcessDiscovery(asteroid: AsteroidId, finder: Wallet, shares: seq<Share>, gross: real, budget: Option<real>,
                            bonus: Option<real>, now: int) returns (total: real, payouts: seq<Payout>)
      requires Valid() && now >= governor.clock
      modifies this, governor, raidVault, accounts
      ensures Valid()
      ensures var scale := Min(BackingScale(Budget(budget, governor.staticBudget), governor.taperFraction,
                                            Total(old(accounts.pendingYield))),
                               DailyScale(LastDay(old(governor.log), now), governor.dailyCap));
              total == Max(0.0, Governed(gross, scale))
      ensures payouts == PaidFor(total, raidVaultPercent, shares, finder,
                                 if bonus.Some? then bonus.value else FINDER_BONUS_PERCENT)
      ensures accounts.pendingYield == CreditPayouts(old(accounts.pendingYield), payouts)
      ensures raidVault.balances
              == RaidVaults.Credited(old(raidVault.balances), asteroid, VaultedFor(total, raidVaultPercent))
      ensures governor.log == if total > 0.0 then old(governor.log) + [Issue(now, total)] else old(governor.log)
      ensures governor.dailyCap > 0.0 && Admitted(old(governor.log), governor.dailyCap) ==>
                Admitted(governor.log, governor.dailyCap)
      ensures Throttled(total, gross, if budget.Some? && budget.value > 0.0 then budget.value else governor.staticBudget,
                        governor.taperFraction, Total(old(accounts.pendingYield)),
                        governor.dailyCap <= 0.0 || LastDay(old(governor.log), now) < governor.dailyCap)
      ensures OneShareEach(shares) ==>
                CreditsFairly(old(accounts.pendingYield), accounts.pendingYield, total, raidVaultPercent, shares, finder,
                              if bonus.Some? then bonus.value else FINDER_BONUS_PERCENT)
      ensures budget.Some? && budget.value > 0.0 && 0.0 <= gross <= budget.value * governor.taperFraction
              && FINDER_BONUS_PERCENT <= raidVaultPercent <= 100.0 && (shares == [] || FullShares(shares))
              && (bonus.Some? ==> bonus.value == FINDER_BONUS_PERCENT) ==>
                Total(accounts.pendingYield) <= Max(Total(old(accounts.pendingYield)), budget.value)
    {
      hide CreditsFairly, OneShareEach, Throttled, FullShares, Budget, DailyScale;
      hide Governed, BackingScale, Recent, SumIssues, CreditPayouts, MinerPayouts, VaultCut, Admitted, TaperFraction;
      var percent := if bonus.Some? then bonus.value else FINDER_BONUS_PERCENT;
      DiscoveryFollowsBudget(gross, budget, governor.staticBudget, governor.taperFraction, accounts.pendingYield,
                             LastDay(governor.log, now), governor.dailyCap, raidVaultPercent, shares, finder, percent);
      var outstanding := accounts.GetTotalPendingYield();
      var scale := governor.CurrentScale(outstanding, budget, now);
      total := Governed(gross, scale);
      totalDiscoveries := totalDiscoveries + 1;
      if total <= 0.0 {
        NothingPaid(old(accounts.pendingYield));
        return 0.0, [];
      }
      if governor.dailyCap > 0.0 {
        OpenWhenPositive(gross, Budget(budget, governor.staticBudget), governor.taperFraction, outstanding,
                         LastDay(old(governor.log), now), governor.dailyCap);
      }
      AdmittedMore(old(governor.log), governor.dailyCap, Issue(now, total));
      payouts := Distribute(asteroid, finder, shares, total, percent);
      governor.Record(total, now);
    }
  }

  /** The issued total is the gross yield, floored, under the verdict of the budget in force. */
  ghost predicate Throttled(total: real, gross: real, budget: real, taper: real, outstanding: real, open: bool) {
    exists scale :: Verdict(scale, budget, taper, outstanding, open) && total == Max(0.0, Floor(gross * scale))
  }

  lemma ScaledIsThrottled(gross: real, scale: real, budget: real, taper: real, outstanding: real, open: bool)
    requires Verdict(scale, budget, taper, outstanding, open)
    ensures Throttled(Max(0.0, Governed(gross, scale)), gross, budget, taper, outstanding, open)
  {
    hide Verdict;
  }

  /** The live budget decides what is issued, and what is issued keeps the liability within it. */
  lemma DiscoveryFollowsBudget(gross: real, live: Option<real>, fixed: real, taper: real, pending: map<Wallet, real>,
                               issued: real, cap: real, vaultPercent: real, shares: seq<Share>, finder: Wallet,
                               bonusPercent: real)
    requires taper > 0.0
    ensures var scale := Min(BackingScale(Budget(live, fixed), taper, Total(pending)), DailyScale(issued, cap));
            var total := Max(0.0, Governed(gross, scale));
            && Throttled(total, gross, if live.Some? && live.value > 0.0 then live.value else fixed, taper, Total(pending),
                         cap <= 0.0 || issued < cap)
            && (OneShareEach(shares) ==>
                  CreditsFairly(pending, CreditPayouts(pending, PaidFor(total, vaultPercent, shares, finder, bonusPercent)),
                                total, vaultPercent, shares, finder, bonusPercent))
            && (live.Some? && live.value > 0.0 && 0.0 <= gross <= live.value * taper && bonusPercent == FINDER_BONUS_PERCENT
                && FINDER_BONUS_PERCENT <= vaultPercent <= 100.0 && (shares == [] || FullShares(shares)) ==>
                  Total(CreditPayouts(pending, PaidFor(total, vaultPercent, shares, finder, bonusPercent)))
                  <= Max(Total(pending), live.value))
  {
    hide Verdict, BackingScale, Throttled, Governed, PaidFor, FullShares, OneShareEach, CreditsFairly;
    var scale := Min(BackingScale(Budget(live, fixed), taper, Total(pending)), DailyScale(issued, cap));
    var total := Max(0.0, Governed(gross, scale));
    LiveBudgetDecides(live, fixed, taper, Total(pending), issued, cap);
    ScaledIsThrottled(gross, scale, if live.Some? && live.value > 0.0 then live.value else fixed, taper, Total(pending),
                      cap <= 0.0 || issued < cap);
    if OneShareEach(shares) {
      DiscoveryCreditsFairly(pending, total, vaultPercent, shares, finder, bonusPercent);
    }
    if live.Some? && live.value > 0.0 && 0.0 <= gross <= live.value * taper && bonusPercent == FINDER_BONUS_PERCENT
       && FINDER_BONUS_PERCENT <= vaultPercent <= 100.0 && (shares == [] || FullShares(shares)) {
      IssuanceFitsHeadroom(gross, live.value, taper, Total(pending), DailyScale(issued, cap));
      CreditsWithinYield(total, vaultPercent, shares, finder);
      CreditPayoutsTotal(pending, PaidFor(total, vaultPercent, shares, finder, FINDER_BONUS_PERCENT));
    }
  }

  lemma NothingPaid(pending: map<Wallet, real>)
    ensures CreditPayouts(pending, []) == pending
  {
  }

  lemma AdmittedMore(log: seq<Issue>, cap: real, x: Issue)
    ensures cap > 0.0 && Admitted(log, cap) && LastDay(log, x.t) < cap ==> Admitted(log + [x], cap)
  {
    hide Recent, SumIssues;
    if cap > 0.0 && Admitted(log, cap) && LastDay(log, x.t) < cap {
      var more := log + [x];
      forall i | 0 <= i < |more| ensures LastDay(more[..i], more[i].t) < cap {
        assert more[..i] == log[..i];
        assert log[..|log|] == log;
      }
    }
  }

  /** A positive yield means the daily cap had not been reached. */
  lemma OpenWhenPositive(gross: real, budget: real, taper: real, outstanding: real, issued: real, cap: real)
    requires taper > 0.0 && cap > 0.0
    ensures Governed(gross, Min(BackingScale(budget, taper, outstanding), DailyScale(issued, cap))) > 0.0 ==> issued < cap
  {
    var backing := BackingScale(budget, taper, outstanding);
    if budget > 0.0 && 0.0 < budget - outstanding < budget * taper {
      TaperedBelowOne(budget - outstanding, budget * taper);
    }
    assert backing >= 0.0;
    assert gross * 0.0 == 0.0;
  }
}
