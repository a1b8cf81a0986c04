/** The refinery pools: accumulation, theft, contributions and the hourly distribution. */
module Refineries {
  import opened Prelude
  import opened Settlement

  const MIN_DISTRIBUTION_AMOUNT := 1.0

  datatype Contribution = Contribution(wallet: Wallet, drillPowerSeconds: real, tier: real, loyalty: real, timeActive: real)

  /** One asteroid's row; `contributions` in order of arrival, one a wallet. */
  datatype Refinery = Refinery(balance: real, pending: real, distributed: real, count: nat, contributions: seq<Contribution>)

  const NEW_REFINERY := Refinery(0.0, 0.0, 0.0, 0, [])

  datatype Distribution = Distribution(total: real, payouts: seq<Payout>)

  // ----- Operations -----

  function AddTo(r: Refinery, amount: real): Refinery {
    r.(balance := r.balance + amount, pending := r.pending + amount)
  }

  function Taken(r: Refinery, amount: real): real {
    if amount <= 0.0 then 0.0 else Min(amount, r.balance)
  }

  function Debited(r: Refinery, amount: real): Refinery {
    if amount <= 0.0 then r
    else r.(balance := r.balance - Taken(r, amount), pending := Max(0.0, r.pending - Taken(r, amount)))
  }

  function Find(cs: seq<Contribution>, w: Wallet): (i: nat)
    ensures i <= |cs| && (i < |cs| ==> cs[i].wallet == w)
    ensures forall j :: 0 <= j < i ==> cs[j].wallet != w
  {
    if cs == [] || cs[0].wallet == w then 0 else 1 + Find(cs[1..], w)
  }

  /** `tier` and `loyalty` come from the stake-tier table and the carbon bonus. */
  function Contributed(cs: seq<Contribution>, w: Wallet, power: real, tier: real, loyalty: real, seconds: real): seq<Contribution> {
    var i := Find(cs, w);
    if i < |cs| then
      cs[i := Contribution(w, cs[i].drillPowerSeconds + power * seconds, tier, loyalty, cs[i].timeActive + seconds)]
    else cs + [Contribution(w, power * seconds, tier, loyalty, seconds)]
  }

  function TotalPower(cs: seq<Contribution>): real {
    if cs == [] then 0.0 else TotalPower(cs[..|cs| - 1]) + cs[|cs| - 1].drillPowerSeconds
  }

  function Score(c: Contribution, total: real): real {
    if total == 0.0 then 0.0
    else c.drillPowerSeconds / total * c.tier * (1.0 + c.loyalty) * Min(1.0, c.timeActive / 3600.0)
  }

  /** The contributors with their scores. */
  function Weights(cs: seq<Contribution>, total: real): seq<Payout> {
    seq(|cs|, i requires 0 <= i < |cs| => Payout(cs[i].wallet, Score(cs[i], total)))
  }

  function ScoresOf(r: Refinery): seq<Payout> {
    Weights(r.contributions, TotalPower(r.contributions))
  }

  /** Whether an hourly distribution pays at all. */
  predicate Distributes(r: Refinery) {
    && r.pending >= MIN_DISTRIBUTION_AMOUNT && r.contributions != []
    && TotalPower(r.contributions) != 0.0 && SumAmounts(ScoresOf(r)) != 0.0
  }

  /** Floored, score-weighted payouts of everything pending. */
  function Payouts(r: Refinery): seq<Payout>
    requires SumAmounts(ScoresOf(r)) > 0.0
  {
    Spoils(ScoresOf(r), SumAmounts(ScoresOf(r)), r.pending)
  }

  function Distributed(r: Refinery): (Refinery, Option<Distribution>)
    requires SumAmounts(ScoresOf(r)) >= 0.0
  {
    if !Distributes(r) then (r, None)
    else
      var payouts := Payouts(r);
      var total := SumAmounts(payouts);
      (Refinery(r.balance - total, 0.0, r.distributed + total, r.count + 1, []), Some(Distribution(total, payouts)))
  }

  /** The amount the estimate shows. */
  function Estimate(r: Refinery, w: Wallet): real
    requires SumAmounts(ScoresOf(r)) >= 0.0
  {
    var i := Find(r.contributions, w);
    if i == |r.contributions| || TotalPower(r.contributions) == 0.0 || SumAmounts(ScoresOf(r)) == 0.0 then 0.0
    else SpoilsShare(ScoresOf(r)[i].amount, SumAmounts(ScoresOf(r)), r.pending)
  }

  // ----- Invariant -----

  ghost predicate Real(c: Contribution) {
    c.drillPowerSeconds >= 0.0 && c.tier >= 0.0 && c.loyalty >= 0.0 && c.timeActive >= 0.0
  }

  ghost predicate AllReal(cs: seq<Contribution>) {
    forall i :: 0 <= i < |cs| ==> Real(cs[i])
  }

  ghost predicate OnePerWallet(cs: seq<Contribution>) {
    forall i, j :: 0 <= i < j < |cs| ==> cs[i].wallet != cs[j].wallet
  }

  ghost predicate Inv(r: Refinery) {
    0.0 <= r.pending <= r.balance && AllReal(r.contributions) && OnePerWallet(r.contributions)
  }

  lemma {:induction false} PowerNonNegative(cs: seq<Contribution>)
    requires AllReal(cs)
    ensures TotalPower(cs) >= 0.0
  {
    if cs != [] {
      PowerNonNegative(cs[..|cs| - 1]);
      assert Real(cs[|cs| - 1]);
    }
  }

  /**
   * A contributor's score is their part of the power, times tier and loyalty, and times the part of an hour they
   * were active.
   */
  lemma ScoreIsProportional(c: Contribution, total: real)
    requires total > 0.0
    ensures Score(c, total) * total == c.drillPowerSeconds * c.tier * (1.0 + c.loyalty) * Min(1.0, c.timeActive / 3600.0)
  {
    var share, time := c.drillPowerSeconds / total, Min(1.0, c.timeActive / 3600.0);
    assert share * total == c.drillPowerSeconds;
    Regroup(share, total, c.tier, 1.0 + c.loyalty, time);
  }

  lemma Regroup(share: real, total: real, a: real, b: real, c: real)
    ensures share * a * b * c * total == share * total * a * b * c
  {
    var x := a * b * c;
    assert share * a * b * c == share * x;
    assert share * total * a * b * c == share * total * x;
  }

  /** Power times seconds is added to the wallet's contribution and nobody else's. */
  lemma ContributionAdds(cs: seq<Contribution>, w: Wallet, power: real, tier: real, loyalty: real, seconds: real)
    ensures var cs' := Contributed(cs, w, power, tier, loyalty, seconds); var i := Find(cs, w);
            && |cs'| == (if i < |cs| then |cs| else |cs| + 1)
            && (forall j :: 0 <= j < |cs| && j != i ==> cs'[j] == cs[j])
            && cs'[i].wallet == w && cs'[i].tier == tier && cs'[i].loyalty == loyalty
            && cs'[i].drillPowerSeconds == (if i < |cs| then cs[i].drillPowerSeconds else 0.0) + power * seconds
            && cs'[i].timeActive == (if i < |cs| then cs[i].timeActive else 0.0) + seconds
  {
  }

  lemma ScoreNonNegative(c: Contribution, total: real)
    requires Real(c) && total >= 0.0
    ensures Score(c, total) >= 0.0
  {
    if total > 0.0 {
      var share, time := c.drillPowerSeconds / total, Min(1.0, c.timeActive / 3600.0);
      assert share >= 0.0 && time >= 0.0;
      Product(share, c.tier);
      Product(share * c.tier, 1.0 + c.loyalty);
      Product(share * c.tier * (1.0 + c.loyalty), time);
    }
  }

  lemma Product(a: real, b: real)
    requires a >= 0.0 && b >= 0.0
    ensures a * b >= 0.0
  {
  }

  lemma ScoresNonNegative(r: Refinery)
    requires Inv(r)
    ensures NonNegative(ScoresOf(r)) && SumAmounts(ScoresOf(r)) >= 0.0
  {
    hide Score, SumAmounts, TotalPower;
    PowerNonNegative(r.contributions);
    var total := TotalPower(r.contributions);
    forall i | 0 <= i < |r.contributions| ensures ScoresOf(r)[i].amount >= 0.0 {
      assert Real(r.contributions[i]);
      ScoreNonNegative(r.contributions[i], total);
    }
    PositiveSum(ScoresOf(r));
  }

  lemma ContributionKeepsInv(r: Refinery, w: Wallet, power: real, tier: real, loyalty: real, seconds: real)
    requires Inv(r) && power >= 0.0 && tier >= 0.0 && loyalty >= 0.0 && seconds >= 0.0
    ensures Inv(r.(contributions := Contributed(r.contributions, w, power, tier, loyalty, seconds)))
  {
    hide Find;
    Product(power, seconds);
    var cs := r.contributions;
    var i := Find(cs, w);
    assert i < |cs| ==> Real(cs[i]);
  }

  /**
   * A distribution pays out at most what was pending, short of less than one token per contributor,
   * and takes exactly that out of the balance.
   */
  lemma DistributionKeepsInv(r: Refinery)
    requires Inv(r)
    ensures SumAmounts(ScoresOf(r)) >= 0.0
    ensures var (r', d) := Distributed(r);
            && Inv(r') && r'.balance + r'.distributed == r.balance + r.distributed
            && (d.Some? <==> Distributes(r))
            && (d.Some? ==> && d.value.total == SumAmounts(d.value.payouts) && Positive(d.value.payouts)
                            && d.value.total <= r.pending < d.value.total + |r.contributions| as real)
            && (d.Some? ==> r'.pending == 0.0 && r'.contributions == [] && r'.count == r.count + 1)
            && (d.None? ==> r' == r)
  {
    hide SumAmounts, Spoils, TotalPower, Weights;
    ScoresNonNegative(r);
    SameCount(r);
    SpoilsWithinPool(ScoresOf(r), r.pending);
  }

  lemma SameCount(r: Refinery)
    ensures |ScoresOf(r)| == |r.contributions|
  {
  }

  // ----- The estimate is the payout -----

  lemma {:induction false} WeightWithinSum(weights: seq<Payout>, i: nat)
    requires NonNegative(weights) && i < |weights|
    ensures 0.0 <= weights[i].amount <= SumAmounts(weights)
  {
    var n := |weights| - 1;
    PositiveSum(weights[..n]);
    if i < n {
      WeightWithinSum(weights[..n], i);
    }
  }

  /** A share of less than a whole token floors to nothing. */
  lemma SmallPool(weight: real, total: real, pool: real)
    requires 0.0 <= weight <= total && total > 0.0 && 0.0 <= pool < 1.0
    ensures SpoilsShare(weight, total, pool) == 0.0
  {
    var part := weight / total;
    assert 0.0 <= part <= 1.0;
    Product(part, pool);
    Product(1.0 - part, pool);
    assert (1.0 - part) * pool == pool - part * pool;
  }

  /**
   * The pending share shown to a miner is exactly what an immediate distribution would pay that
   * wallet, in every case in which nothing is paid as well.
   */
  lemma EstimateIsPayout(r: Refinery, w: Wallet)
    requires Inv(r)
    ensures SumAmounts(ScoresOf(r)) >= 0.0
    ensures Estimate(r, w) == match Distributed(r).1 case None => 0.0 case Some(d) => PaidTo(d.payouts, w)
  {
    hide SumAmounts, Spoils, TotalPower, Score, SpoilsShare, PaidTo, Find;
    ScoresNonNegative(r);
    var weights, i := ScoresOf(r), Find(r.contributions, w);
    if SumAmounts(weights) > 0.0 {
      if i < |r.contributions| {
        WeightWithinSum(weights, i);
        if r.pending < 1.0 {
          SmallPool(weights[i].amount, SumAmounts(weights), r.pending);
        }
        PaidShare(weights, SumAmounts(weights), r.pending, i);
      } else {
        NotPaid(weights, SumAmounts(weights), r.pending, w);
      }
    }
  }

  /** A distribution pays each contributor the floor of their score-weighted part of everything pending. */
  lemma ContributorGets(r: Refinery, i: nat)
    requires Inv(r) && i < |r.contributions| && Distributes(r)
    ensures var total := SumAmounts(ScoresOf(r)); var c := r.contributions[i];
            && total > 0.0
            && PaidTo(Payouts(r), c.wallet) == Floor(Portion(Score(c, TotalPower(r.contributions)), total, r.pending))
  {
    hide SumAmounts, Spoils, TotalPower, Score, Portion, Floor;
    ScoresNonNegative(r);
    PaidShare(ScoresOf(r), SumAmounts(ScoresOf(r)), r.pending, i);
  }

  // ----- Whole runs -----

  datatype Event =
    | AddYield(amount: real)
    | Raided(amount: real)
    | Contribute(wallet: Wallet, power: real, tier: real, loyalty: real, seconds: real)
    | Distribute

  /** The row with everything ever added to it and taken by raids. */
  datatype History = History(row: Refinery, added: real, debited: real)

  predicate Enabled(e: Event) {
    match e
    case AddYield(amount) => amount >= 0.0
    case Contribute(w, power, tier, loyalty, seconds) => power >= 0.0 && tier >= 0.0 && loyalty >= 0.0 && seconds >= 0.0
    case _ => true
  }

  ghost predicate Conserved(h: History) {
    Inv(h.row) && h.added == h.row.balance + h.row.distributed + h.debited && h.debited >= 0.0
  }

  function Step(h: History, e: Event): History
    requires SumAmounts(ScoresOf(h.row)) >= 0.0
  {
    match e
    case AddYield(amount) => History(AddTo(h.row, amount), h.added + amount, h.debited)
    case Raided(amount) => History(Debited(h.row, amount), h.added, h.debited + Taken(h.row, amount))
    case Contribute(w, power, tier, loyalty, seconds) =>
      h.(row := h.row.(contributions := Contributed(h.row.contributions, w, power, tier, loyalty, seconds)))
    case Distribute => h.(row := Distributed(h.row).0)
  }

  lemma StepConserves(h: History, e: Event)
    requires Conserved(h) && Enabled(e)
    ensures SumAmounts(ScoresOf(h.row)) >= 0.0
    ensures Conserved(Step(h, e))
  {
    hide SumAmounts, ScoresOf, Contributed, Distributed;
    ScoresNonNegative(h.row);
    DistributionKeepsInv(h.row);
    match e
    case Contribute(w, power, tier, loyalty, seconds) => ContributionKeepsInv(h.row, w, power, tier, loyalty, seconds);
    case _ =>
  }

  /** The histories that events can produce from an empty row. */
  ghost predicate Reaches(events: seq<Event>, h: History) {
    if events == [] then h == History(NEW_REFINERY, 0.0, 0.0)
    else
      var e := events[|events| - 1];
      exists before :: Reaches(events[..|events| - 1], before) && Enabled(e)
                       && SumAmounts(ScoresOf(before.row)) >= 0.0 && h == Step(before, e)
  }

  /** Over any run everything added is in the balance, distributed or stolen, and no more is pending than is there. */
  lemma {:induction false} RefineryConserves(events: seq<Event>, h: History)
    requires Reaches(events, h)
    ensures h.added == h.row.balance + h.row.distributed + h.debited
    ensures 0.0 <= h.row.pending <= h.row.balance
    ensures Conserved(h)
  {
    if events != [] {
      hide Step, Enabled, SumAmounts, ScoresOf;
      var e := events[|events| - 1];
      var before :| Reaches(events[..|events| - 1], before) && Enabled(e)
                    && SumAmounts(ScoresOf(before.row)) >= 0.0 && h == Step(before, e);
      RefineryConserves(events[..|events| - 1], before);
      StepConserves(before, e);
    }
  }

  // ----- The manager in place -----

  lemma OneMoreWeight(cs: seq<Contribution>, i: nat, total: real)
    requires i < |cs|
    ensures Weights(cs[..i + 1], total) == Weights(cs[..i], total) + [Payout(cs[i].wallet, Score(cs[i], total))]
    ensures SumAmounts(Weights(cs[..i + 1], total)) == SumAmounts(Weights(cs[..i], total)) + Score(cs[i], total)
  {
    SumAmountsAppend(Weights(cs[..i], total), Payout(cs[i].wallet, Score(cs[i], total)));
    assert Weights(cs[..i + 1], total) == Weights(cs[..i], total) + [Payout(cs[i].wallet, Score(cs[i], total))];
  }

  class RefineryManager {
    var refineries: map<AsteroidId, Refinery>

    ghost predicate Valid()
      reads this
    {
      forall a :: a in refineries ==> Inv(refineries[a])
    }

    ghost function Row(a: AsteroidId): Refinery
      reads this
    {
      if a in refineries then refineries[a] else NEW_REFINERY
    }

    constructor ()
      ensures Valid() && refineries == map[]
    {
      refineries := map[];
    }

    method GetOrCreate(a: AsteroidId) returns (r: Refinery)
      requires Valid()
      modifies this
      ensures Valid() && r == old(Row(a)) && Inv(r)
      ensures refineries == old(refineries)[a := r]
    {
      if a !in refineries {
        refineries := refineries[a := NEW_REFINERY];
      }
      r := refineries[a];
      assert refineries == refineries[a := r];
    }

    method AddToRefinery(a: AsteroidId, amount: real) returns (balance: real)
      requires Valid() && amount >= 0.0
      modifies this
      ensures Valid() && refineries == old(refineries)[a := AddTo(old(Row(a)), amount)] && balance == Row(a).balance
    {
      var r := GetOrCreate(a);
      r := r.(balance := r.balance + amount);
      r := r.(pending := r.pending + amount);
      refineries := refineries[a := r];
      return r.balance;
    }

    method Debit(a: AsteroidId, amount: real) returns (taken: real)
      requires Valid()
      modifies this
      ensures Valid()
      ensures a !in old(refineries) ==> taken == 0.0 && refineries == old(refineries)
      ensures a in old(refineries) ==>
                taken == Taken(old(refineries)[a], amount) && refineries == old(refineries)[a := Debited(old(refineries)[a], amount)]
      ensures a in old(refineries) ==>
                && taken == Max(0.0, Min(amount, old(refineries)[a].balance))
                && Row(a).balance == old(refineries)[a].balance - taken
                && Row(a).pending == Max(0.0, old(refineries)[a].pending - taken)
    {
      if a !in refineries || amount <= 0.0 {
        assert a in refineries ==> refineries == refineries[a := refineries[a]];
        return 0.0;
      }
      var r := refineries[a];
      taken := Min(amount, r.balance);
      r := r.(balance := r.balance - taken);
      r := r.(pending := Max(0.0, r.pending - taken));
      refineries := refineries[a := r];
    }

    method UpdateMinerContribution(a: AsteroidId, w: Wallet, power: real, tier: real, loyalty: real, seconds: real)
      requires Valid() && power >= 0.0 && tier >= 0.0 && loyalty >= 0.0 && seconds >= 0.0
      modifies this
      ensures Valid()
      ensures var r := old(Row(a));
              refineries == old(refineries)[a := r.(contributions := Contributed(r.contributions, w, power, tier, loyalty, seconds))]
    {
      hide Inv, Contributed;
      var r := GetOrCreate(a);
      ContributionKeepsInv(r, w, power, tier, loyalty, seconds);
      r := r.(contributions := Contributed(r.contributions, w, power, tier, loyalty, seconds));
      refineries := refineries[a := r];
    }

    method SumPower(cs: seq<Contribution>) returns (total: real)
      ensures total == TotalPower(cs)
    {
      total := 0.0;
      for i := 0 to |cs|
        invariant total == TotalPower(cs[..i])
      {
        assert cs[..i + 1][..i] == cs[..i];
        total := total + cs[i].drillPowerSeconds;
      }
      assert cs[..|cs|] == cs;
    }

    method ScoreAll(cs: seq<Contribution>, total: real) returns (scores: seq<Payout>, totalScore: real)
      ensures scores == Weights(cs, total) && totalScore == SumAmounts(scores)
    {
      hide Score, Weights, SumAmounts;
      scores, totalScore := [], 0.0;
      NoWeights(total);
      assert cs[..0] == [];
      for i := 0 to |cs|
        invariant scores == Weights(cs[..i], total) && totalScore == SumAmounts(scores)
      {
        OneMoreWeight(cs, i, total);
        var score := Score(cs[i], total);
        scores := scores + [Payout(cs[i].wallet, score)];
        totalScore := totalScore + score;
      }
      assert cs[..|cs|] == cs;
    }

    /** The payout loop. */
    method PayOut(scores: seq<Payout>, totalScore: real, amount: real) returns (payouts: seq<Payout>, paid: real)
      requires totalScore > 0.0
      ensures payouts == Spoils(scores, totalScore, amount) && paid == SumAmounts(payouts)
    {
      hide SpoilsShare, Spoils, SumAmounts;
      payouts, paid := [], 0.0;
      NoSpoils(totalScore, amount);
      for i := 0 to |scores|
        invariant payouts == Spoils(scores[..i], totalScore, amount) && paid == SumAmounts(payouts)
      {
        OneMoreSpoil(scores, i, totalScore, amount);
        var payout := SpoilsShare(scores[i].amount, totalScore, amount);
        if payout > 0.0 {
          SumAmountsAppend(payouts, Payout(scores[i].wallet, payout));
          payouts := payouts + [Payout(scores[i].wallet, payout)];
          paid := paid + payout;
        }
      }
      assert scores[..|scores|] == scores;
    }

    method DistributeRefinery(a: AsteroidId) returns (result: Option<Distribution>)
      requires Valid()
      modifies this
      ensures Valid()
      ensures a !in old(refineries) ==> result.None? && refineries == old(refineries)
      ensures a in old(refineries) ==>
                && SumAmounts(ScoresOf(old(refineries)[a])) >= 0.0
                && result == Distributed(old(refineries)[a]).1
                && (result.Some? <==> Distributes(old(refineries)[a]))
                && refineries == old(refineries)[a := Distributed(old(refineries)[a]).0]
    {
      hide Inv, Weights, Spoils, TotalPower, SumAmounts;
      if a !in refineries {
        return None;
      }
      var r := refineries[a];
      ScoresNonNegative(r);
      DistributionKeepsInv(r);
      assert refineries == refineries[a := r];
      if r.pending < MIN_DISTRIBUTION_AMOUNT || r.contributions == [] {
        return None;
      }
      var power := SumPower(r.contributions);
      if power == 0.0 {
        return None;
      }
      var scores, totalScore := ScoreAll(r.contributions, power);
      if totalScore == 0.0 {
        return None;
      }
      var payouts, paid := PayOut(scores, totalScore, r.pending);
      refineries := refineries[a := Refinery(r.balance - paid, 0.0, r.distributed + paid, r.count + 1, [])];
      return Some(Distribution(paid, payouts));
    }

    method FindContribution(cs: seq<Contribution>, w: Wallet) returns (i: nat)
      ensures i == Find(cs, w)
    {
      i := 0;
      while i < |cs| && cs[i].wallet != w
        invariant i <= |cs| && forall j :: 0 <= j < i ==> cs[j].wallet != w
      {
        i := i + 1;
      }
      FindIs(cs, w, i);
    }

    /** `None` when the asteroid has no refinery; the percentage is left out. */
    method GetMinerPendingShare(a: AsteroidId, w: Wallet) returns (amount: Option<real>)
      requires Valid()
      ensures amount.Some? <==> a in refineries
      ensures amount.Some? ==>
                && SumAmounts(ScoresOf(refineries[a])) >= 0.0
                && amount.value == Estimate(refineries[a], w)
                && amount.value == match Distributed(refineries[a]).1 case None => 0.0 case Some(d) => PaidTo(d.payouts, w)
    {
      hide Inv, Weights, Spoils, TotalPower, SumAmounts, PaidTo, SpoilsShare, Distributed, Find;
      if a !in refineries {
        return None;
      }
      var r := refineries[a];
      ScoresNonNegative(r);
      EstimateIsPayout(r, w);
      SameCount(r);
      var i := FindContribution(r.contributions, w);
      if i == |r.contributions| {
        return Some(0.0);
      }
      var power := SumPower(r.contributions);
      if power == 0.0 {
        return Some(0.0);
      }
      var scores, totalScore := ScoreAll(r.contributions, power);
      if totalScore == 0.0 {
        return Some(0.0);
      }
      return Some(SpoilsShare(scores[i].amount, totalScore, r.pending));
    }
  }

  lemma NoWeights(total: real)
    ensures Weights([], total) == [] && SumAmounts([]) == 0.0
  {
  }

  lemma FindIs(cs: seq<Contribution>, w: Wallet, i: nat)
    requires i <= |cs| && (i < |cs| ==> cs[i].wallet == w) && forall j :: 0 <= j < i ==> cs[j].wallet != w
    ensures Find(cs, w) == i
  {
  }
}
