/** How a wager is divided: ledger resolution, settlement plan and payment legs. */
module Settlement {
  import opened Prelude

  type WagerId = string

  // ----- The three-way loss split -----

  /** Basis points of a forfeited wager that are burned, recirculated and paid to defenders. */
  datatype LossSplit = LossSplit(burnBps: real, recirculateBps: real, defenderBps: real)

  const DEFAULT_LOSS_SPLIT := LossSplit(4000.0, 4000.0, 2000.0)

  predicate ValidSplit(s: LossSplit) {
    s.burnBps >= 0.0 && s.recirculateBps >= 0.0 && s.defenderBps >= 0.0 && SumsToWhole(s)
  }

  predicate SumsToWhole(s: LossSplit) {
    s.burnBps + s.recirculateBps + s.defenderBps == 10000.0
  }

  /** An environment setting; `None` is an unset or non-finite one. */
  function ReadBps(raw: Option<real>, fallback: real): real {
    if raw.Some? && raw.value >= 0.0 then raw.value else fallback
  }

  function NormalizeLossSplit(s: LossSplit): LossSplit {
    if SumsToWhole(s) then s else DEFAULT_LOSS_SPLIT
  }

  function SplitFromEnvironment(burn: Option<real>, recirculate: Option<real>, defender: Option<real>): LossSplit {
    NormalizeLossSplit(LossSplit(ReadBps(burn, DEFAULT_LOSS_SPLIT.burnBps),
                                 ReadBps(recirculate, DEFAULT_LOSS_SPLIT.recirculateBps),
                                 ReadBps(defender, DEFAULT_LOSS_SPLIT.defenderBps)))
  }

  /** Whatever the environment says, the split in force is usable; a usable one is taken as given, any other falls back. */
  lemma EnvironmentSplitIsValid(burn: Option<real>, recirculate: Option<real>, defender: Option<real>)
    ensures ValidSplit(SplitFromEnvironment(burn, recirculate, defender))
    ensures burn.Some? && recirculate.Some? && defender.Some?
            && ValidSplit(LossSplit(burn.value, recirculate.value, defender.value))
            ==> SplitFromEnvironment(burn, recirculate, defender)
                == LossSplit(burn.value, recirculate.value, defender.value)
    ensures SplitFromEnvironment(None, None, None) == LossSplit(4000.0, 4000.0, 2000.0)
    ensures burn.Some? && recirculate.Some? && defender.Some?
            && burn.value >= 0.0 && recirculate.value >= 0.0 && defender.value >= 0.0
            && burn.value + recirculate.value + defender.value != 10000.0
            ==> SplitFromEnvironment(burn, recirculate, defender) == DEFAULT_LOSS_SPLIT
    ensures burn.None? || burn.value < 0.0 ==>
              SplitFromEnvironment(burn, recirculate, defender) == SplitFromEnvironment(Some(4000.0), recirculate, defender)
    ensures recirculate.None? || recirculate.value < 0.0 ==>
              SplitFromEnvironment(burn, recirculate, defender) == SplitFromEnvironment(burn, Some(4000.0), defender)
    ensures defender.None? || defender.value < 0.0 ==>
              SplitFromEnvironment(burn, recirculate, defender) == SplitFromEnvironment(burn, recirculate, Some(2000.0))
  {
  }

  // ----- Ledger resolution -----

  datatype Side = Attacker | Defender

  datatype Resolution = Resolution(
    side: Side, returned: real, toDefenders: real, recirculated: real, burned: real,
    winnerPayouts: seq<Payout>, defenderPayouts: seq<Payout>)

  predicate NonNegative(s: seq<Payout>) {
    forall i :: 0 <= i < |s| ==> s[i].amount >= 0.0
  }

  predicate Positive(s: seq<Payout>) {
    forall i :: 0 <= i < |s| ==> s[i].amount > 0.0
  }

  /** A percentage of one bet, floored. */
  function BetShare(amount: real, bps: real): real {
    Floor(amount * bps / 10000.0)
  }

  function SumBetShares(bets: seq<Payout>, bps: real): real {
    if bets == [] then 0.0
    else SumBetShares(bets[..|bets| - 1], bps) + BetShare(bets[|bets| - 1].amount, bps)
  }

  /** A stake's exact portion of `pool`. */
  function Portion(stake: real, total: real, pool: real): real
    requires total > 0.0
  {
    stake / total * pool
  }

  function SpoilsShare(stake: real, total: real, pool: real): real
    requires total > 0.0
  {
    Floor(Portion(stake, total, pool))
  }

  /** The defenders' floored shares of `pool`, leaving out those that floor to nothing. */
  function Spoils(stakes: seq<Payout>, total: real, pool: real): seq<Payout>
    requires total > 0.0
  {
    if stakes == [] then []
    else
      var last := stakes[|stakes| - 1];
      var share := SpoilsShare(last.amount, total, pool);
      Spoils(stakes[..|stakes| - 1], total, pool) + (if share > 0.0 then [Payout(last.wallet, share)] else [])
  }

  lemma NoSpoils(total: real, pool: real)
    requires total > 0.0
    ensures Spoils([], total, pool) == [] && SumAmounts([]) == 0.0
  {
  }

  /** One turn of a payout loop. */
  lemma OneMoreSpoil(stakes: seq<Payout>, i: nat, total: real, pool: real)
    requires total > 0.0 && i < |stakes|
    ensures var share := SpoilsShare(stakes[i].amount, total, pool); var before := Spoils(stakes[..i], total, pool);
            Spoils(stakes[..i + 1], total, pool) == if share > 0.0 then before + [Payout(stakes[i].wallet, share)] else before
  {
    hide SpoilsShare;
    assert stakes[..i + 1][..i] == stakes[..i];
    assert Spoils(stakes[..i], total, pool) + [] == Spoils(stakes[..i], total, pool);
  }

  function SpoilsOf(stakes: seq<Payout>, pool: real): seq<Payout> {
    if pool > 0.0 && SumAmounts(stakes) > 0.0 then Spoils(stakes, SumAmounts(stakes), pool) else []
  }

  /** What the ledger decides for the attacker bets of one pool. */
  function Resolve(bets: seq<Payout>, side: Side, stakes: seq<Payout>, split: LossSplit): Resolution {
    if side.Attacker? then
      Resolution(side, SumAmounts(bets), 0.0, 0.0, 0.0, bets, [])
    else
      var pool := SumBetShares(bets, split.defenderBps);
      var spoils := SpoilsOf(stakes, pool);
      var recirculated := SumBetShares(bets, split.recirculateBps) + (pool - SumAmounts(spoils));
      Resolution(side, 0.0, SumAmounts(spoils), recirculated,
                 SumAmounts(bets) - SumAmounts(spoils) - recirculated, [], spoils)
  }

  lemma PortionAdds(a: real, b: real, total: real, pool: real)
    requires total > 0.0
    ensures Portion(a + b, total, pool) == Portion(a, total, pool) + Portion(b, total, pool)
  {
  }

  lemma PortionNonNegative(a: real, total: real, pool: real)
    requires total > 0.0 && a >= 0.0 && pool >= 0.0
    ensures Portion(a, total, pool) >= 0.0
  {
  }

  lemma PortionOfAll(total: real, pool: real)
    requires total > 0.0
    ensures Portion(0.0, total, pool) == 0.0
    ensures Portion(total, total, pool) == pool
  {
  }

  lemma {:induction false} SpoilsPositive(stakes: seq<Payout>, total: real, pool: real)
    requires total > 0.0
    ensures Positive(Spoils(stakes, total, pool))
  {
    hide SpoilsShare;
    if stakes != [] {
      SpoilsPositive(stakes[..|stakes| - 1], total, pool);
    }
  }

  /** One defender's floored share is non-negative and short of the portion by less than one. */
  lemma ShareNearPortion(stake: real, total: real, pool: real)
    requires total > 0.0 && stake >= 0.0 && pool >= 0.0
    ensures 0.0 <= SpoilsShare(stake, total, pool) <= Portion(stake, total, pool)
    ensures Portion(stake, total, pool) < SpoilsShare(stake, total, pool) + 1.0
  {
    hide Portion;
    PortionNonNegative(stake, total, pool);
  }

  /** Floored shares stay within the proportional share. */
  lemma {:induction false} SpoilsWithinPortion(stakes: seq<Payout>, total: real, pool: real)
    requires total > 0.0 && pool >= 0.0 && NonNegative(stakes)
    ensures SumAmounts(Spoils(stakes, total, pool)) <= Portion(SumAmounts(stakes), total, pool)
  {
    hide Portion, SpoilsShare, Spoils;
    if stakes == [] {
      NoSpoils(total, pool);
      PortionOfAll(total, pool);
    } else {
      var n := |stakes| - 1;
      SpoilsWithinPortion(stakes[..n], total, pool);
      SpoilsStep(stakes, total, pool);
      PortionAdds(SumAmounts(stakes[..n]), stakes[n].amount, total, pool);
      ShareNearPortion(stakes[n].amount, total, pool);
    }
  }

  /** The last defender adds exactly their floored share. */
  lemma SpoilsStep(stakes: seq<Payout>, total: real, pool: real)
    requires total > 0.0 && pool >= 0.0 && stakes != [] && stakes[|stakes| - 1].amount >= 0.0
    ensures SumAmounts(Spoils(stakes, total, pool))
            == SumAmounts(Spoils(stakes[..|stakes| - 1], total, pool))
               + SpoilsShare(stakes[|stakes| - 1].amount, total, pool)
  {
    hide Portion, SpoilsShare;
    var n := |stakes| - 1;
    var share := SpoilsShare(stakes[n].amount, total, pool);
    ShareNearPortion(stakes[n].amount, total, pool);
    SumAmountsAppend(Spoils(stakes[..n], total, pool), Payout(stakes[n].wallet, share));
    if share <= 0.0 {
      assert Spoils(stakes, total, pool) == Spoils(stakes[..n], total, pool);
    }
  }

  /** Flooring costs each defender less than one token. */
  lemma {:induction false} SpoilsDust(stakes: seq<Payout>, total: real, pool: real, dust: real)
    requires total > 0.0 && pool >= 0.0 && NonNegative(stakes) && dust == |stakes| as real
    ensures Portion(SumAmounts(stakes), total, pool) <= SumAmounts(Spoils(stakes, total, pool)) + dust
    ensures stakes != [] ==> Portion(SumAmounts(stakes), total, pool) < SumAmounts(Spoils(stakes, total, pool)) + dust
  {
    hide Portion, SpoilsShare, Spoils;
    if stakes == [] {
      NoSpoils(total, pool);
      PortionOfAll(total, pool);
    } else {
      var n := |stakes| - 1;
      SpoilsDust(stakes[..n], total, pool, dust - 1.0);
      SpoilsStep(stakes, total, pool);
      PortionAdds(SumAmounts(stakes[..n]), stakes[n].amount, total, pool);
      ShareNearPortion(stakes[n].amount, total, pool);
    }
  }

  lemma SpoilsWithinPool(stakes: seq<Payout>, pool: real)
    requires pool >= 0.0 && NonNegative(stakes)
    ensures Positive(SpoilsOf(stakes, pool))
    ensures SumAmounts(SpoilsOf(stakes, pool)) <= pool
    ensures SumAmounts(stakes) > 0.0 ==> pool - SumAmounts(SpoilsOf(stakes, pool)) < |stakes| as real
  {
    hide Portion;
    if pool > 0.0 && SumAmounts(stakes) > 0.0 {
      SpoilsPositive(stakes, SumAmounts(stakes), pool);
      SpoilsWithinPortion(stakes, SumAmounts(stakes), pool);
      SpoilsDust(stakes, SumAmounts(stakes), pool, |stakes| as real);
      PortionOfAll(SumAmounts(stakes), pool);
    }
  }

  // ----- What each defender gets -----

  /** The last defender adds a positive share, to themselves. */
  lemma PaidStep(stakes: seq<Payout>, total: real, pool: real, w: Wallet)
    requires total > 0.0 && stakes != []
    ensures var n := |stakes| - 1; var share := SpoilsShare(stakes[n].amount, total, pool);
            PaidTo(Spoils(stakes, total, pool), w)
            == PaidTo(Spoils(stakes[..n], total, pool), w) + (if stakes[n].wallet == w && share > 0.0 then share else 0.0)
  {
    hide SpoilsShare, PaidTo;
    var n := |stakes| - 1;
    var before, share := Spoils(stakes[..n], total, pool), SpoilsShare(stakes[n].amount, total, pool);
    PaidToMore(before, Payout(stakes[n].wallet, share), w);
    assert before + [] == before;
  }

  /** A wallet without a stake gets nothing. */
  lemma {:induction false} NotPaid(stakes: seq<Payout>, total: real, pool: real, w: Wallet)
    requires total > 0.0 && forall i :: 0 <= i < |stakes| ==> stakes[i].wallet != w
    ensures PaidTo(Spoils(stakes, total, pool), w) == 0.0
  {
    hide SpoilsShare;
    if stakes != [] {
      NotPaid(stakes[..|stakes| - 1], total, pool, w);
      PaidStep(stakes, total, pool, w);
    }
  }

  lemma {:induction false} PaidShare(stakes: seq<Payout>, total: real, pool: real, i: nat)
    requires total > 0.0 && pool >= 0.0 && i < |stakes| && NonNegative(stakes) && OneEach(stakes)
    ensures PaidTo(Spoils(stakes, total, pool), stakes[i].wallet) == SpoilsShare(stakes[i].amount, total, pool)
  {
    hide SpoilsShare, Spoils, PaidTo, Portion;
    var n := |stakes| - 1;
    ShareNearPortion(stakes[n].amount, total, pool);
    PaidStep(stakes, total, pool, stakes[i].wallet);
    if i < n {
      PaidShare(stakes[..n], total, pool, i);
    } else {
      NotPaid(stakes[..n], total, pool, stakes[i].wallet);
    }
  }

  /** Each defender gets the floor of their stake-weighted part of the pool, and nobody else gets anything. */
  lemma EachDefenderGets(stakes: seq<Payout>, pool: real, w: Wallet)
    requires NonNegative(stakes) && OneEach(stakes)
    ensures pool > 0.0 && SumAmounts(stakes) > 0.0 ==>
              forall i :: 0 <= i < |stakes| && stakes[i].wallet == w ==>
                PaidTo(SpoilsOf(stakes, pool), w) == Floor(Portion(stakes[i].amount, SumAmounts(stakes), pool))
    ensures pool <= 0.0 || SumAmounts(stakes) <= 0.0 || (forall i :: 0 <= i < |stakes| ==> stakes[i].wallet != w) ==>
              PaidTo(SpoilsOf(stakes, pool), w) == 0.0
  {
    hide Portion, Spoils, SumAmounts, Floor;
    var total := SumAmounts(stakes);
    if pool > 0.0 && total > 0.0 {
      if forall i :: 0 <= i < |stakes| ==> stakes[i].wallet != w {
        NotPaid(stakes, total, pool, w);
      }
      forall i | 0 <= i < |stakes| && stakes[i].wallet == w
        ensures PaidTo(SpoilsOf(stakes, pool), w) == Floor(Portion(stakes[i].amount, total, pool))
      {
        PaidShare(stakes, total, pool, i);
      }
    }
  }

  /** How many of the stakes are the wallet's. */
  function StakesOf(stakes: seq<Payout>, w: Wallet): real {
    if stakes == [] then 0.0 else StakesOf(stakes[..|stakes| - 1], w) + (if stakes[|stakes| - 1].wallet == w then 1.0 else 0.0)
  }

  /** Whoever holds however many stakes gets no more than their part of the pool, short of less than a token a stake. */
  lemma {:induction false} SpoilsAreProportional(stakes: seq<Payout>, total: real, pool: real, w: Wallet)
    requires total > 0.0 && pool >= 0.0 && NonNegative(stakes)
    ensures var exact, paid := Portion(PaidTo(stakes, w), total, pool), PaidTo(Spoils(stakes, total, pool), w);
            paid <= exact <= paid + StakesOf(stakes, w)
  {
    hide SpoilsShare, Spoils, Portion;
    if stakes == [] {
      NoSpoils(total, pool);
      PortionOfAll(total, pool);
    } else {
      var n := |stakes| - 1;
      SpoilsAreProportional(stakes[..n], total, pool, w);
      PaidStep(stakes, total, pool, w);
      ShareNearPortion(stakes[n].amount, total, pool);
      PortionAdds(PaidTo(stakes[..n], w), stakes[n].amount, total, pool);
    }
  }

  lemma BetShareBounds(amount: real, split: LossSplit)
    requires amount >= 0.0 && ValidSplit(split)
    ensures BetShare(amount, split.defenderBps) >= 0.0
    ensures BetShare(amount, split.recirculateBps) >= 0.0
    ensures BetShare(amount, split.defenderBps) + BetShare(amount, split.recirculateBps) <= amount
  {
    var b, r, d := split.burnBps, split.recirculateBps, split.defenderBps;
    assert amount * b >= 0.0 && amount * r >= 0.0 && amount * d >= 0.0;
    assert amount * b + amount * r + amount * d == amount * (b + r + d) == amount * 10000.0;
  }

  lemma {:induction false} BetSharesFit(bets: seq<Payout>, split: LossSplit)
    requires NonNegative(bets) && ValidSplit(split)
    ensures SumBetShares(bets, split.defenderBps) >= 0.0
    ensures SumBetShares(bets, split.recirculateBps) >= 0.0
    ensures SumBetShares(bets, split.defenderBps) + SumBetShares(bets, split.recirculateBps) <= SumAmounts(bets)
  {
    hide BetShare;
    if bets != [] {
      var n := |bets| - 1;
      BetSharesFit(bets[..n], split);
      BetShareBounds(bets[n].amount, split);
    }
  }

  /**
   * Nothing is minted and nothing is lost: defenders, recirculation and burn are never
   * negative and add up exactly to the forfeited bets; a win returns every bet in full.
   */
  lemma ResolutionIsExact(bets: seq<Payout>, side: Side, stakes: seq<Payout>, split: LossSplit)
    requires NonNegative(bets) && NonNegative(stakes) && ValidSplit(split)
    ensures var r := Resolve(bets, side, stakes, split);
            && r.side == side
            && r.returned + r.toDefenders + r.recirculated + r.burned == SumAmounts(bets)
            && r.toDefenders >= 0.0 && r.recirculated >= 0.0 && r.burned >= 0.0
            && r.toDefenders == SumAmounts(r.defenderPayouts) && Positive(r.defenderPayouts)
            && (if side.Attacker? then r.winnerPayouts == bets && r.returned == SumAmounts(bets)
                else r.winnerPayouts == [] && r.returned == 0.0)
  {
    BetSharesFit(bets, split);
    var pool := SumBetShares(bets, split.defenderBps);
    SpoilsWithinPool(stakes, pool);
    PositiveSum(SpoilsOf(stakes, pool));
  }

  lemma {:induction false} PositiveSum(s: seq<Payout>)
    requires NonNegative(s)
    ensures SumAmounts(s) >= 0.0
  {
    if s != [] {
      PositiveSum(s[..|s| - 1]);
    }
  }

  /** The unrounded part of an amount. */
  function ExactPart(amount: real, bps: real): real {
    amount * bps / 10000.0
  }

  lemma ExactPartAdds(a: real, b: real, bps: real)
    ensures ExactPart(a + b, bps) == ExactPart(a, bps) + ExactPart(b, bps)
    ensures ExactPart(0.0, bps) == 0.0
  {
  }

  lemma PartsMakeTheWhole(amount: real, split: LossSplit)
    requires SumsToWhole(split)
    ensures ExactPart(amount, split.burnBps) + ExactPart(amount, split.recirculateBps)
            + ExactPart(amount, split.defenderBps) == amount
  {
    assert amount * (split.burnBps + split.recirculateBps + split.defenderBps) == amount * 10000.0;
  }

  /** The share of one bet is its exact percentage, floored. */
  lemma ShareNearExact(amount: real, bps: real)
    ensures BetShare(amount, bps) == Floor(ExactPart(amount, bps))
    ensures ExactPart(amount, bps) - 1.0 <= BetShare(amount, bps) <= ExactPart(amount, bps)
  {
  }

  /** Flooring bet by bet loses less than one token a bet. */
  lemma {:induction false} BetSharesNearExact(bets: seq<Payout>, bps: real, n: real)
    requires n == |bets| as real
    ensures ExactPart(SumAmounts(bets), bps) - n <= SumBetShares(bets, bps) <= ExactPart(SumAmounts(bets), bps)
  {
    hide ExactPart, BetShare;
    if bets == [] {
      ExactPartAdds(0.0, 0.0, bps);
    } else {
      var k := |bets| - 1;
      BetSharesNearExact(bets[..k], bps, n - 1.0);
      ExactPartAdds(SumAmounts(bets[..k]), bets[k].amount, bps);
      ShareNearExact(bets[k].amount, bps);
    }
  }

  /**
   * On a defender win each share is its configured percentage of the forfeited bets up to rounding:
   * defenders never get more than theirs, what they do not get is recirculated, and the burn takes
   * its percentage and the rounding of at most two tokens a bet.
   */
  lemma ResolutionFollowsSplit(bets: seq<Payout>, stakes: seq<Payout>, split: LossSplit)
    requires NonNegative(bets) && NonNegative(stakes) && ValidSplit(split)
    ensures var r := Resolve(bets, Defender, stakes, split); var total := SumAmounts(bets); var n := |bets| as real;
            && r.toDefenders <= ExactPart(total, split.defenderBps)
            && r.recirculated >= ExactPart(total, split.recirculateBps) - n
            && (SumAmounts(stakes) <= 0.0 ==> r.toDefenders == 0.0)
            && r.toDefenders + r.recirculated <= ExactPart(total, split.defenderBps) + ExactPart(total, split.recirculateBps)
            && ExactPart(total, split.burnBps) <= r.burned <= ExactPart(total, split.burnBps) + 2.0 * n
  {
    hide ExactPart, BetShare, SumBetShares, Spoils;
    var n := |bets| as real;
    BetSharesNearExact(bets, split.defenderBps, n);
    BetSharesNearExact(bets, split.recirculateBps, n);
    BetSharesFit(bets, split);
    SpoilsWithinPool(stakes, SumBetShares(bets, split.defenderBps));
    PartsMakeTheWhole(SumAmounts(bets), split);
  }

  // ----- From resolution to plan to legs -----

  /** The world's note of the wager that rides on an expedition. */
  datatype WagerEntry = WagerEntry(wagerId: WagerId, wallet: Wallet, amount: real)

  /** The outcome handed to the escrow manager; 0.0 stands for an omitted amount. */
  datatype Plan = Plan(wagerId: WagerId, returnTo: Option<Payout>, burn: real, recirculate: real,
                       defenderPayouts: seq<Payout>)

  function OnlyPositive(s: seq<Payout>): seq<Payout> {
    if s == [] then []
    else OnlyPositive(s[..|s| - 1]) + (if s[|s| - 1].amount > 0.0 then [s[|s| - 1]] else [])
  }

  function RefundPlan(w: WagerEntry): Plan {
    Plan(w.wagerId, Some(Payout(w.wallet, w.amount)), 0.0, 0.0, [])
  }

  function ForfeitPlan(w: WagerEntry): Plan {
    Plan(w.wagerId, None, w.amount, 0.0, [])
  }

  function SettlementPlan(w: WagerEntry, r: Resolution): Plan {
    if r.side.Attacker? then RefundPlan(w)
    else Plan(w.wagerId, None, if r.burned > 0.0 then r.burned else 0.0,
              if r.recirculated > 0.0 then r.recirculated else 0.0, OnlyPositive(r.defenderPayouts))
  }

  datatype LegKind = Return | PayDefender | Recirculate | Burn

  datatype Leg = Leg(kind: LegKind, wallet: Wallet, amount: real, done: bool)

  function PayoutLegs(payouts: seq<Payout>): seq<Leg> {
    if payouts == [] then []
    else
      var p := payouts[|payouts| - 1];
      PayoutLegs(payouts[..|payouts| - 1]) +
      (if p.amount > 0.0 then [Leg(PayDefender, p.wallet, p.amount, false)] else [])
  }

  function BuildLegs(plan: Plan): seq<Leg> {
    if plan.returnTo.Some? && plan.returnTo.value.amount > 0.0 then
      [Leg(Return, plan.returnTo.value.wallet, plan.returnTo.value.amount, false)]
    else
      PayoutLegs(plan.defenderPayouts)
      + (if plan.recirculate > 0.0 then [Leg(Recirculate, "", plan.recirculate, false)] else [])
      + (if plan.burn > 0.0 then [Leg(Burn, "", plan.burn, false)] else [])
  }

  function SumLegs(legs: seq<Leg>): real {
    if legs == [] then 0.0 else SumLegs(legs[..|legs| - 1]) + legs[|legs| - 1].amount
  }

  /** Payouts come first, then recirculation, then the burn; a return stands alone. */
  predicate Before(a: Leg, b: Leg) {
    || (a.kind.PayDefender? && !b.kind.Return?)
    || (a.kind.Recirculate? && b.kind.Burn?)
  }

  predicate AllBefore(legs: seq<Leg>, leg: Leg) {
    forall i :: 0 <= i < |legs| ==> Before(legs[i], leg)
  }

  /** The irreversible leg closes the list. */
  predicate BurnLast(legs: seq<Leg>) {
    forall i, j :: 0 <= i < j < |legs| ==> Before(legs[i], legs[j])
  }

  /** Legs that pay exactly `amount`, every one of them a real movement still to be made. */
  predicate ExactLegs(legs: seq<Leg>, amount: real) {
    && (forall i :: 0 <= i < |legs| ==> legs[i].amount > 0.0 && !legs[i].done)
    && SumLegs(legs) == amount
    && BurnLast(legs)
  }

  /** Appending at most one leg. */
  lemma AppendLegs(legs: seq<Leg>, more: seq<Leg>)
    requires |more| <= 1
    ensures SumLegs(legs + more) == SumLegs(legs) + (if more == [] then 0.0 else more[0].amount)
  {
    if more == [] {
      assert legs + more == legs;
    } else {
      assert (legs + more)[..|legs|] == legs;
    }
  }

  /** Adding a leg (or nothing) behind all others. */
  lemma ExtendLegs(legs: seq<Leg>, total: real, more: seq<Leg>)
    requires ExactLegs(legs, total)
    requires |more| <= 1
    requires more != [] ==> more[0].amount > 0.0 && !more[0].done
    requires more != [] ==> AllBefore(legs, more[0])
    ensures ExactLegs(legs + more, total + (if more == [] then 0.0 else more[0].amount))
  {
    AppendLegs(legs, more);
  }

  predicate AllPayouts(legs: seq<Leg>) {
    forall i :: 0 <= i < |legs| ==> legs[i].kind.PayDefender?
  }

  lemma {:induction false} PayoutLegsExact(payouts: seq<Payout>)
    ensures AllPayouts(PayoutLegs(payouts))
    ensures ExactLegs(PayoutLegs(payouts), SumAmounts(OnlyPositive(payouts)))
  {
    if payouts != [] {
      var n := |payouts| - 1;
      PayoutLegsExact(payouts[..n]);
      var p := payouts[n];
      if p.amount > 0.0 {
        SumAmountsAppend(OnlyPositive(payouts[..n]), p);
        ExtendLegs(PayoutLegs(payouts[..n]), SumAmounts(OnlyPositive(payouts[..n])),
                   [Leg(PayDefender, p.wallet, p.amount, false)]);
      } else {
        assert PayoutLegs(payouts) == PayoutLegs(payouts[..n]);
        assert OnlyPositive(payouts) == OnlyPositive(payouts[..n]);
      }
    }
  }

  lemma {:induction false} PositivePayoutsKept(payouts: seq<Payout>)
    requires Positive(payouts)
    ensures OnlyPositive(payouts) == payouts
  {
    if payouts != [] {
      PositivePayoutsKept(payouts[..|payouts| - 1]);
    }
  }

  /** What the legs of one kind move, and what those addressed to one wallet do. */
  function MovedAs(legs: seq<Leg>, kind: LegKind): real {
    if legs == [] then 0.0
    else MovedAs(legs[..|legs| - 1], kind) + (if legs[|legs| - 1].kind == kind then legs[|legs| - 1].amount else 0.0)
  }

  function MovedTo(legs: seq<Leg>, kind: LegKind, w: Wallet): real {
    if legs == [] then 0.0
    else
      var last := legs[|legs| - 1];
      MovedTo(legs[..|legs| - 1], kind, w) + (if last.kind == kind && last.wallet == w then last.amount else 0.0)
  }

  /** The positive amounts among the payouts to a wallet. */
  function PositiveTo(payouts: seq<Payout>, w: Wallet): real {
    if payouts == [] then 0.0
    else
      var last := payouts[|payouts| - 1];
      PositiveTo(payouts[..|payouts| - 1], w) + (if last.wallet == w then Max(last.amount, 0.0) else 0.0)
  }

  /** Appending at most one leg. */
  lemma AppendMoves(legs: seq<Leg>, more: seq<Leg>, kind: LegKind, w: Wallet)
    requires |more| <= 1
    ensures MovedAs(legs + more, kind)
            == MovedAs(legs, kind) + (if more != [] && more[0].kind == kind then more[0].amount else 0.0)
    ensures MovedTo(legs + more, kind, w)
            == MovedTo(legs, kind, w) + (if more != [] && more[0].kind == kind && more[0].wallet == w then more[0].amount else 0.0)
  {
    if more == [] {
      assert legs + more == legs;
    } else {
      assert (legs + more)[..|legs|] == legs;
    }
  }

  /** The payout legs pay each wallet its positive payouts and move nothing else. */
  lemma {:induction false} PayoutLegsPay(payouts: seq<Payout>, kind: LegKind, w: Wallet)
    ensures MovedTo(PayoutLegs(payouts), PayDefender, w) == PositiveTo(payouts, w)
    ensures !kind.PayDefender? ==> MovedAs(PayoutLegs(payouts), kind) == 0.0
  {
    if payouts != [] {
      var n := |payouts| - 1;
      var p := payouts[n];
      PayoutLegsPay(payouts[..n], kind, w);
      var more := if p.amount > 0.0 then [Leg(PayDefender, p.wallet, p.amount, false)] else [];
      AppendMoves(PayoutLegs(payouts[..n]), more, kind, w);
      AppendMoves(PayoutLegs(payouts[..n]), more, PayDefender, w);
    }
  }

  lemma {:induction false} KeptPayouts(payouts: seq<Payout>, w: Wallet)
    ensures PositiveTo(OnlyPositive(payouts), w) == PaidTo(OnlyPositive(payouts), w) == PositiveTo(payouts, w)
  {
    if payouts != [] {
      var n := |payouts| - 1;
      KeptPayouts(payouts[..n], w);
      var kept := OnlyPositive(payouts[..n]);
      assert (kept + [payouts[n]])[..|kept|] == kept;
      assert kept + [] == kept;
    }
  }

  /**
   * A return stands alone and goes whole to its wallet. Otherwise nothing is returned, each defender is paid their
   * positive payouts, and recirculation and burn move the plan's amounts.
   */
  lemma LegsPayAsPlanned(plan: Plan, w: Wallet)
    ensures var legs := BuildLegs(plan);
            if plan.returnTo.Some? && plan.returnTo.value.amount > 0.0
            then legs == [Leg(Return, plan.returnTo.value.wallet, plan.returnTo.value.amount, false)]
            else && MovedAs(legs, Return) == 0.0
                 && MovedTo(legs, PayDefender, w) == PositiveTo(plan.defenderPayouts, w)
                 && MovedAs(legs, Recirculate) == Max(plan.recirculate, 0.0)
                 && MovedAs(legs, Burn) == Max(plan.burn, 0.0)
  {
    hide PayoutLegs, MovedAs, MovedTo, PositiveTo;
    if !(plan.returnTo.Some? && plan.returnTo.value.amount > 0.0) {
      var payouts := PayoutLegs(plan.defenderPayouts);
      var recirculate := if plan.recirculate > 0.0 then [Leg(Recirculate, "", plan.recirculate, false)] else [];
      var burn := if plan.burn > 0.0 then [Leg(Burn, "", plan.burn, false)] else [];
      forall kind ensures MovedAs(BuildLegs(plan), kind)
                          == MovedAs(payouts, kind) + MovedOf(recirculate, kind) + MovedOf(burn, kind)
                  && MovedTo(BuildLegs(plan), PayDefender, w) == PositiveTo(plan.defenderPayouts, w)
                  && (!kind.PayDefender? ==> MovedAs(payouts, kind) == 0.0) {
        PayoutLegsPay(plan.defenderPayouts, kind, w);
        AppendMoves(payouts, recirculate, kind, w);
        AppendMoves(payouts, recirculate, PayDefender, w);
        AppendMoves(payouts + recirculate, burn, kind, w);
        AppendMoves(payouts + recirculate, burn, PayDefender, w);
      }
    }
  }

  function MovedOf(more: seq<Leg>, kind: LegKind): real {
    if more != [] && more[0].kind == kind then more[0].amount else 0.0
  }

  /** What a plan asks to be moved. */
  function PlanTotal(plan: Plan): real {
    if plan.returnTo.Some? && plan.returnTo.value.amount > 0.0 then plan.returnTo.value.amount
    else SumAmounts(OnlyPositive(plan.defenderPayouts)) + Max(plan.recirculate, 0.0) + Max(plan.burn, 0.0)
  }

  /** The legs of any plan carry exactly its positive amounts, in burn-last order. */
  lemma LegsFollowPlan(plan: Plan)
    ensures ExactLegs(BuildLegs(plan), PlanTotal(plan))
  {
    hide PayoutLegs, OnlyPositive, SumAmounts, SumLegs, ExactLegs;
    if plan.returnTo.Some? && plan.returnTo.value.amount > 0.0 {
      NoLegs();
      ExtendLegs([], 0.0, BuildLegs(plan));
      assert [] + BuildLegs(plan) == BuildLegs(plan);
    } else {
      var payouts := PayoutLegs(plan.defenderPayouts);
      PayoutLegsExact(plan.defenderPayouts);
      var recirculate := if plan.recirculate > 0.0 then [Leg(Recirculate, "", plan.recirculate, false)] else [];
      var burn := if plan.burn > 0.0 then [Leg(Burn, "", plan.burn, false)] else [];
      var payoutSum := SumAmounts(OnlyPositive(plan.defenderPayouts));
      ExtendLegs(payouts, payoutSum, recirculate);
      ExtendLegs(payouts + recirculate, payoutSum + Max(plan.recirculate, 0.0), burn);
    }
  }

  lemma NoLegs()
    ensures ExactLegs([], 0.0)
  {
  }

  /**
   * End to end: a positive wager, any usable split and any defenders. The legs the outbox
   * will pay are all positive and sum exactly to the wager, whoever wins.
   */
  lemma WagerSplitsExactly(w: WagerEntry, side: Side, stakes: seq<Payout>, split: LossSplit)
    requires w.amount > 0.0 && NonNegative(stakes) && ValidSplit(split)
    ensures var r := Resolve([Payout(w.wallet, w.amount)], side, stakes, split);
            ExactLegs(BuildLegs(SettlementPlan(w, r)), w.amount)
  {
    hide Resolve, SumAmounts, PayoutLegs, SumLegs, BuildLegs;
    var bets := [Payout(w.wallet, w.amount)];
    var r := Resolve(bets, side, stakes, split);
    SumOfOne(bets);
    ResolutionIsExact(bets, side, stakes, split);
    LegsFollowPlan(SettlementPlan(w, r));
    PositivePayoutsKept(r.defenderPayouts);
  }

  // ----- Who gets a wager -----

  /** The whole wager goes back to its wallet. */
  ghost predicate ReturnsWhole(legs: seq<Leg>, w: WagerEntry) {
    legs == [Leg(Return, w.wallet, w.amount, false)]
  }

  ghost predicate BurnsWhole(legs: seq<Leg>, w: WagerEntry) {
    legs == [Leg(Burn, "", w.amount, false)]
  }

  /** Nothing is returned: every defender gets what the resolution owes them, the rest is recirculated and burned. */
  ghost predicate SplitsAs(legs: seq<Leg>, r: Resolution) {
    && MovedAs(legs, Return) == 0.0
    && (forall v :: MovedTo(legs, PayDefender, v) == PaidTo(r.defenderPayouts, v))
    && MovedAs(legs, Recirculate) == r.recirculated && MovedAs(legs, Burn) == r.burned
  }

  /**
   * The three shares of one lost wager: the defenders' floored percentage by their stakes, the recirculated one with
   * what flooring the defenders' shares leaves over, and the rest burned.
   */
  ghost predicate SplitByShares(legs: seq<Leg>, w: WagerEntry, stakes: seq<Payout>, split: LossSplit) {
    var pool, base := BetShare(w.amount, split.defenderBps), BetShare(w.amount, split.recirculateBps);
    var spoils := SpoilsOf(stakes, pool);
    && MovedAs(legs, Return) == 0.0
    && (forall v :: MovedTo(legs, PayDefender, v) == PaidTo(spoils, v))
    && MovedAs(legs, Recirculate) == base + pool - SumAmounts(spoils) && MovedAs(legs, Burn) == w.amount - pool - base
  }

  /** A raid won returns the whole wager to its wallet; one lost splits it as the ledger resolved it. */
  lemma SettlementFollowsResult(w: WagerEntry, r: Resolution)
    requires w.amount > 0.0
    requires r.side.Defender? ==> r.recirculated >= 0.0 && r.burned >= 0.0 && Positive(r.defenderPayouts)
    ensures r.side.Attacker? ==> ReturnsWhole(BuildLegs(SettlementPlan(w, r)), w)
    ensures r.side.Defender? ==> SplitsAs(BuildLegs(SettlementPlan(w, r)), r)
  {
    hide BuildLegs, OnlyPositive, PositiveTo, MovedAs, MovedTo, PaidTo;
    var plan := SettlementPlan(w, r);
    LegsPayAsPlanned(plan, w.wallet);
    if r.side.Defender? {
      PositivePayoutsKept(r.defenderPayouts);
      forall v ensures MovedTo(BuildLegs(plan), PayDefender, v) == PaidTo(r.defenderPayouts, v) {
        LegsPayAsPlanned(plan, v);
        KeptPayouts(r.defenderPayouts, v);
      }
    }
  }

  /** The ledger's resolution of a single lost bet, in floors of its amount. */
  lemma SoleBetResolution(w: WagerEntry, stakes: seq<Payout>, split: LossSplit)
    ensures var r := Resolve([Payout(w.wallet, w.amount)], Defender, stakes, split);
            var pool, base := BetShare(w.amount, split.defenderBps), BetShare(w.amount, split.recirculateBps);
            && r.defenderPayouts == SpoilsOf(stakes, pool)
            && r.recirculated == base + pool - SumAmounts(SpoilsOf(stakes, pool)) && r.burned == w.amount - pool - base
  {
    hide SpoilsOf, SumAmounts, BetShare, SumBetShares;
    var bets := [Payout(w.wallet, w.amount)];
    SumOfOne(bets);
    ShareOfOne(bets, split.defenderBps);
    ShareOfOne(bets, split.recirculateBps);
  }

  lemma ShareOfOne(bets: seq<Payout>, bps: real)
    requires |bets| == 1
    ensures SumBetShares(bets, bps) == BetShare(bets[0].amount, bps)
  {
    hide BetShare;
    assert bets[..0] == [];
  }

  /** Ledger, plan and legs composed: who gets a wager, whoever wins. */
  lemma WagerGoesTo(w: WagerEntry, side: Side, stakes: seq<Payout>, split: LossSplit)
    requires w.amount > 0.0 && NonNegative(stakes) && ValidSplit(split)
    ensures var legs := BuildLegs(SettlementPlan(w, Resolve([Payout(w.wallet, w.amount)], side, stakes, split)));
            if side.Attacker? then ReturnsWhole(legs, w) else SplitByShares(legs, w, stakes, split)
  {
    hide Resolve, SumAmounts, BuildLegs, SettlementPlan, PaidTo, MovedAs, MovedTo, SpoilsOf, BetShare;
    var bets := [Payout(w.wallet, w.amount)];
    SumOfOne(bets);
    ResolutionIsExact(bets, side, stakes, split);
    SettlementFollowsResult(w, Resolve(bets, side, stakes, split));
    SoleBetResolution(w, stakes, split);
  }

  /** Abandoning burns the whole wager; a refund returns the whole wager. */
  lemma ForfeitAndRefundAreExact(w: WagerEntry)
    requires w.amount > 0.0
    ensures BuildLegs(ForfeitPlan(w)) == [Leg(Burn, "", w.amount, false)]
    ensures BuildLegs(RefundPlan(w)) == [Leg(Return, w.wallet, w.amount, false)]
    ensures ExactLegs(BuildLegs(ForfeitPlan(w)), w.amount)
    ensures ExactLegs(BuildLegs(RefundPlan(w)), w.amount)
  {
    LegsFollowPlan(ForfeitPlan(w));
    LegsFollowPlan(RefundPlan(w));
  }
}
