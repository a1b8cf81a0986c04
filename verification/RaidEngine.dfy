/** The raid engine: who wins a raid, what is stolen from the seeded pot, and who is credited. */
module RaidCombat {
  import opened Prelude
  import opened Settlement
  import opened Expeditions

  const DEFENSE_ADVANTAGE := 1.2
  const MIN_STEAL_PERCENT := 0.1
  const MAX_STEAL_PERCENT := 0.3
  const DEFENDER_SPOILS_PERCENT := 0.1

  /** `betsBurned` is the sum of the stake bets a lost raid burns; escrowed wagers are not among them. */
  datatype RaidResult = RaidResult(expeditionId: ExpeditionId, attackersWon: bool, stolenYield: real, betsBurned: real)

  /** What a raid touches: the tracker, the stealable pots, the wallets' pending yield, the burn counter. */
  datatype Battle = Battle(tracker: Tracker, pots: map<AsteroidId, real>, credits: map<Wallet, real>, totalBurned: real)

  // ----- One raid -----

  predicate Wins(attack: real, defense: real) {
    attack > defense * DEFENSE_ADVANTAGE
  }

  /** Dividing by no defense at all gives infinity, which the cap turns into 2. */
  function PowerRatio(attack: real, defense: real): real {
    var effective := defense * DEFENSE_ADVANTAGE;
    if effective == 0.0 then 2.0 else Min(attack / effective, 2.0)
  }

  function StealPercent(attack: real, defense: real): real {
    Min(MIN_STEAL_PERCENT + (PowerRatio(attack, defense) - 1.0) * (MAX_STEAL_PERCENT - MIN_STEAL_PERCENT),
        MAX_STEAL_PERCENT)
  }

  function Stolen(pot: real, attack: real, defense: real): real {
    Floor(pot * StealPercent(attack, defense))
  }

  /** Equal floored shares; an empty party counts as one. */
  function ShareOf(stolen: real, attackers: nat): real {
    EvenShare(stolen, if attackers == 0 then 1 else attackers)
  }

  function CreditEach(credits: map<Wallet, real>, wallets: seq<Wallet>, share: real): map<Wallet, real> {
    if wallets == [] || share <= 0.0 then credits
    else Credit(CreditEach(credits, wallets[..|wallets| - 1], share), wallets[|wallets| - 1], share)
  }

  function Win(b: Battle, e: Expedition, defense: real): Battle {
    var pot := Held(b.pots, e.target);
    var stolen := Stolen(pot, e.attackPower, defense);
    b.(pots := b.pots[e.target := pot - stolen],
       credits := CreditEach(b.credits, e.attackers, ShareOf(stolen, |e.attackers|)))
  }

  /** The defenders' tenth of the attackers' stake bets. */
  function SpoilsPool(bets: real): real {
    Floor(bets * DEFENDER_SPOILS_PERCENT)
  }

  ghost function StakeBets(e: Expedition): real {
    Total(e.bets)
  }

  ghost function Lose(b: Battle, e: Expedition, stakes: seq<Payout>): Battle {
    var bets := StakeBets(e);
    if bets <= 0.0 then b
    else
      var payouts := SpoilsOf(stakes, SpoilsPool(bets));
      b.(credits := CreditPayouts(b.credits, payouts), totalBurned := b.totalBurned + bets - SumAmounts(payouts))
  }

  predicate Raiding(t: Tracker, id: ExpeditionId) {
    id in t.expeditions && t.expeditions[id].status.Active?
  }

  /** `stakes` are the asteroid's active defenders with their positive defense power. */
  ghost function AfterRaid(b: Battle, id: ExpeditionId, defense: real, stakes: seq<Payout>): Battle
    requires Raiding(b.tracker, id)
  {
    var e := b.tracker.expeditions[id];
    var won := Wins(e.attackPower, defense);
    var fought := if won then Win(b, e, defense) else Lose(b, e, stakes);
    fought.(tracker := Complete(b.tracker, id, won))
  }

  ghost function ResultOf(b: Battle, id: ExpeditionId, defense: real): RaidResult
    requires Raiding(b.tracker, id)
  {
    var e := b.tracker.expeditions[id];
    var won := Wins(e.attackPower, defense);
    RaidResult(id, won, if won then Stolen(Held(b.pots, e.target), e.attackPower, defense) else 0.0,
               if won then 0.0 else StakeBets(e))
  }

  // ----- All raids at one target -----

  ghost function AfterRaids(b: Battle, ids: seq<ExpeditionId>, defense: ExpeditionId -> real,
                            stakes: ExpeditionId -> seq<Payout>): Battle {
    if ids == [] then b
    else
      var before := AfterRaids(b, ids[..|ids| - 1], defense, stakes);
      var id := ids[|ids| - 1];
      if Raiding(before.tracker, id) then AfterRaid(before, id, defense(id), stakes(id)) else before
  }

  ghost function Results(b: Battle, ids: seq<ExpeditionId>, defense: ExpeditionId -> real,
                         stakes: ExpeditionId -> seq<Payout>): seq<RaidResult> {
    if ids == [] then []
    else
      var before := AfterRaids(b, ids[..|ids| - 1], defense, stakes);
      var id := ids[|ids| - 1];
      Results(b, ids[..|ids| - 1], defense, stakes)
      + (if Raiding(before.tracker, id) then [ResultOf(before, id, defense(id))] else [])
  }

  function SumStolen(results: seq<RaidResult>): real {
    if results == [] then 0.0 else SumStolen(results[..|results| - 1]) + results[|results| - 1].stolenYield
  }

  function SumBurned(results: seq<RaidResult>): real {
    if results == [] then 0.0 else SumBurned(results[..|results| - 1]) + results[|results| - 1].betsBurned
  }

  /** 0.7 to the power of the number of attacker wins. */
  function Kept(results: seq<RaidResult>): real {
    if results == [] then 1.0
    else Kept(results[..|results| - 1]) * (if results[|results| - 1].attackersWon then 1.0 - MAX_STEAL_PERCENT else 1.0)
  }

  // ----- Arithmetic of one steal -----

  lemma QuotientAboveOne(a: real, b: real)
    requires a > b > 0.0
    ensures a / b > 1.0
  {
  }

  /** A win steals between a tenth and three tenths. */
  lemma StealPercentBounds(attack: real, defense: real)
    requires defense >= 0.0 && Wins(attack, defense)
    ensures MIN_STEAL_PERCENT < StealPercent(attack, defense) <= MAX_STEAL_PERCENT
  {
    if defense > 0.0 {
      QuotientAboveOne(attack, defense * DEFENSE_ADVANTAGE);
    }
  }

  lemma QuotientGrows(a: real, b: real, k: real)
    requires a <= b && k > 0.0
    ensures a / k <= b / k
  {
  }

  /** The attackers win exactly when they exceed the defense by more than a fifth of it. */
  predicate Outweighs(attack: real, defense: real) {
    5.0 * attack > 6.0 * defense
  }

  lemma WinsExactlyWhen(attack: real, defense: real)
    ensures Wins(attack, defense) <==> Outweighs(attack, defense)
  {
  }

  /** Less defense or more power keeps a win and never steals less. */
  lemma WeakerDefenseLosesMore(attack: real, more: real, defense: real, less: real)
    requires 0.0 <= less <= defense && attack <= more && Wins(attack, defense)
    ensures Wins(more, less) && StealPercent(attack, defense) <= StealPercent(more, less)
  {
    StealGrowsWithPower(attack, more, defense);
    if less > 0.0 {
      QuotientShrinks(more, less * DEFENSE_ADVANTAGE, defense * DEFENSE_ADVANTAGE);
    }
  }

  lemma QuotientShrinks(a: real, k: real, m: real)
    requires a >= 0.0 && 0.0 < k <= m
    ensures a / m <= a / k
  {
    var x, y := a / m, a / k;
    assert x * m == a && y * k == a && x >= 0.0;
    assert x * (m - k) >= 0.0;
    assert (y - x) * k == a - x * k;
    NonNegativeFactor(y - x, k);
  }

  lemma NonNegativeFactor(d: real, k: real)
    requires k > 0.0 && d * k >= 0.0
    ensures d >= 0.0
  {
  }

  lemma TwiceOver(k: real)
    requires k > 0.0
    ensures 2.0 * k / k == 2.0
  {
  }

  /** Between just winning and twice the effective defense the percentage grows evenly from a tenth to three tenths. */
  lemma StealIsEven(attack: real, defense: real)
    requires defense > 0.0 && var effective := defense * DEFENSE_ADVANTAGE; effective <= attack <= 2.0 * effective
    ensures var effective := defense * DEFENSE_ADVANTAGE;
            (StealPercent(attack, defense) - MIN_STEAL_PERCENT) * effective == 0.2 * (attack - effective)
  {
    var effective := defense * DEFENSE_ADVANTAGE;
    QuotientGrows(attack, 2.0 * effective, effective);
    TwiceOver(effective);
    var ratio := attack / effective;
    assert ratio * effective == attack;
    assert StealPercent(attack, defense) == MIN_STEAL_PERCENT + (ratio - 1.0) * 0.2;
    assert (ratio - 1.0) * 0.2 * effective == 0.2 * (ratio * effective - effective);
  }

  /** Outweighing the defense further never steals less, and from twice the effective defense on it steals the most. */
  lemma StealGrowsWithPower(attack: real, more: real, defense: real)
    requires defense >= 0.0 && Wins(attack, defense) && attack <= more
    ensures StealPercent(attack, defense) <= StealPercent(more, defense)
    ensures attack >= 2.0 * (defense * DEFENSE_ADVANTAGE) ==> StealPercent(attack, defense) == MAX_STEAL_PERCENT
  {
    var effective := defense * DEFENSE_ADVANTAGE;
    if effective > 0.0 {
      QuotientGrows(attack, more, effective);
      if attack >= 2.0 * effective {
        QuotientGrows(2.0 * effective, attack, effective);
        TwiceOver(effective);
      }
    }
  }

  lemma PercentOf(pot: real, percent: real)
    requires pot >= 0.0 && 0.1 <= percent <= 0.3
    ensures 0.1 * pot <= pot * percent <= 0.3 * pot
  {
    assert pot * (percent - 0.1) >= 0.0;
    assert pot * (0.3 - percent) >= 0.0;
  }

  lemma StolenBounds(pot: real, attack: real, defense: real)
    requires pot >= 0.0 && defense >= 0.0 && Wins(attack, defense)
    ensures 0.0 <= Stolen(pot, attack, defense) <= MAX_STEAL_PERCENT * pot
    ensures Stolen(pot, attack, defense) > MIN_STEAL_PERCENT * pot - 1.0
    ensures Stolen(pot, attack, defense) == Floor(pot * StealPercent(attack, defense))
  {
    StealPercentBounds(attack, defense);
    PercentOf(pot, StealPercent(attack, defense));
  }

  // ----- Credits -----

  lemma {:induction false} CreditEachTotal(credits: map<Wallet, real>, wallets: seq<Wallet>, share: real)
    requires share >= 0.0
    ensures Total(CreditEach(credits, wallets, share)) == Total(credits) + Times(share, |wallets|)
  {
    if share == 0.0 {
      TimesIsProduct(share, |wallets|, |wallets| as real);
    } else if wallets != [] {
      var k := |wallets| - 1;
      CreditEachTotal(credits, wallets[..k], share);
      var before, w := CreditEach(credits, wallets[..k], share), wallets[k];
      TotalPut(before, w, Held(before, w) + share);
    }
  }

  /** Attackers are credited at most the stolen amount and miss less than one token each. */
  lemma WinCredits(b: Battle, e: Expedition, defense: real)
    requires Held(b.pots, e.target) >= 0.0 && defense >= 0.0 && Wins(e.attackPower, defense) && e.attackers != []
    ensures var stolen := Stolen(Held(b.pots, e.target), e.attackPower, defense);
            var gained := Total(Win(b, e, defense).credits) - Total(b.credits);
            gained <= stolen < gained + |e.attackers| as real
  {
    hide Stolen, CreditEach, EvenShare;
    var stolen := Stolen(Held(b.pots, e.target), e.attackPower, defense);
    StolenBounds(Held(b.pots, e.target), e.attackPower, defense);
    EvenSharesFit(stolen, |e.attackers|);
    CreditEachTotal(b.credits, e.attackers, ShareOf(stolen, |e.attackers|));
  }

  lemma {:induction false} CreditEachHeld(credits: map<Wallet, real>, wallets: seq<Wallet>, share: real, w: Wallet)
    requires share >= 0.0
    ensures Held(CreditEach(credits, wallets, share), w) == Held(credits, w) + Times(share, multiset(wallets)[w])
  {
    if share == 0.0 {
      TimesIsProduct(share, multiset(wallets)[w], multiset(wallets)[w] as real);
    } else if wallets != [] {
      var k := |wallets| - 1;
      assert wallets == wallets[..k] + [wallets[k]];
      CreditEachHeld(credits, wallets[..k], share, w);
    }
  }

  /** A win credits each attacker an equal floored share of what was stolen, and nobody else. */
  lemma WinPays(b: Battle, e: Expedition, defense: real, w: Wallet)
    requires Held(b.pots, e.target) >= 0.0 && defense >= 0.0 && Wins(e.attackPower, defense)
    requires e.attackers != [] && Distinct(e.attackers)
    ensures var stolen := Stolen(Held(b.pots, e.target), e.attackPower, defense);
            Held(Win(b, e, defense).credits, w)
            == Held(b.credits, w) + (if w in e.attackers then EvenShare(stolen, |e.attackers|) else 0.0)
  {
    hide Stolen, CreditEach, EvenShare;
    var share := ShareOf(Stolen(Held(b.pots, e.target), e.attackPower, defense), |e.attackers|);
    StolenBounds(Held(b.pots, e.target), e.attackPower, defense);
    CreditEachHeld(b.credits, e.attackers, share, w);
    assert w in e.attackers <==> w in multiset(e.attackers);
    TimesIsProduct(share, multiset(e.attackers)[w], multiset(e.attackers)[w] as real);
  }

  /** A loss credits each defender their part of a tenth of the stake bets, and nobody else; the rest is burned. */
  lemma LosePays(b: Battle, e: Expedition, stakes: seq<Payout>, w: Wallet)
    requires StakeBets(e) > 0.0
    ensures var spoils := SpoilsOf(stakes, Floor(StakeBets(e) / 10.0));
            && Held(Lose(b, e, stakes).credits, w) == Held(b.credits, w) + PaidTo(spoils, w)
            && Lose(b, e, stakes).totalBurned == b.totalBurned + StakeBets(e) - SumAmounts(spoils)
  {
    hide SpoilsOf, SumAmounts, PaidTo, StakeBets;
    assert StakeBets(e) * DEFENDER_SPOILS_PERCENT == StakeBets(e) / 10.0;
    CreditPayoutsHeld(b.credits, SpoilsOf(stakes, SpoilsPool(StakeBets(e))), w);
  }

  /** Every stake bet of a lost raid is either burned or credited to defenders. */
  lemma LoseCredits(b: Battle, e: Expedition, stakes: seq<Payout>)
    requires forall w :: w in e.bets ==> e.bets[w] >= 0.0
    ensures var b' := Lose(b, e, stakes);
            Total(b'.credits) - Total(b.credits) + b'.totalBurned - b.totalBurned == StakeBets(e)
  {
    hide SpoilsOf, SumAmounts;
    TotalNonNegative(e.bets);
    if StakeBets(e) > 0.0 {
      CreditPayoutsTotal(b.credits, SpoilsOf(stakes, SpoilsPool(StakeBets(e))));
    }
  }

  // ----- The sweep -----

  /** The raids to resolve: distinct, active, and all against `a`. */
  ghost predicate Due(t: Tracker, a: AsteroidId, ids: seq<ExpeditionId>) {
    (forall i, j :: 0 <= i < j < |ids| ==> ids[i] != ids[j]) && forall id :: id in ids ==> Targets(t, id, a)
  }

  ghost predicate BetsNonNegative(t: Tracker) {
    forall id, w :: id in t.expeditions && w in t.expeditions[id].bets ==> t.expeditions[id].bets[w] >= 0.0
  }

  ghost predicate Sound(defense: ExpeditionId -> real) {
    forall id :: defense(id) >= 0.0
  }

  /** Everything but the status of `ids` is as before. */
  ghost predicate OnlyResolved(t: Tracker, t': Tracker, ids: seq<ExpeditionId>) {
    && t'.expeditions.Keys == t.expeditions.Keys
    && (forall x :: x in t.expeditions && x !in ids ==> t'.expeditions[x] == t.expeditions[x])
    && (forall x :: x in t.expeditions && x in ids ==>
          !t'.expeditions[x].status.Active? && t'.expeditions[x].(status := Active) == t.expeditions[x].(status := Active))
  }

  lemma AfterRaidTracker(b: Battle, id: ExpeditionId, defense: real, stakes: seq<Payout>)
    requires Raiding(b.tracker, id)
    ensures AfterRaid(b, id, defense, stakes).tracker
            == Complete(b.tracker, id, Wins(b.tracker.expeditions[id].attackPower, defense))
  {
  }

  lemma ResolveOneMore(t: Tracker, t': Tracker, ids: seq<ExpeditionId>, id: ExpeditionId, won: bool)
    requires OnlyResolved(t, t', ids) && id !in ids && Raiding(t, id)
    ensures Raiding(t', id) && OnlyResolved(t, Complete(t', id, won), ids + [id])
  {
  }

  lemma NothingResolved(t: Tracker)
    ensures OnlyResolved(t, t, [])
  {
  }

  lemma CompletedAs(t: Tracker, id: ExpeditionId, won: bool)
    requires id in t.expeditions
    ensures id in Complete(t, id, won).expeditions
    ensures Complete(t, id, won).expeditions[id].status == (if won then Completed else Failed)
  {
  }

  lemma ResultNames(b: Battle, id: ExpeditionId, defense: real)
    requires Raiding(b.tracker, id)
    ensures ResultOf(b, id, defense).expeditionId == id
  {
  }

  lemma {:induction false} RaidsResolve(b: Battle, a: AsteroidId, ids: seq<ExpeditionId>,
                                        defense: ExpeditionId -> real, stakes: ExpeditionId -> seq<Payout>)
    requires Agree(b.tracker) && Due(b.tracker, a, ids)
    ensures var b' := AfterRaids(b, ids, defense, stakes);
            Agree(b'.tracker) && OnlyResolved(b.tracker, b'.tracker, ids)
    ensures |Results(b, ids, defense, stakes)| == |ids|
    ensures forall i :: 0 <= i < |ids| ==> Results(b, ids, defense, stakes)[i].expeditionId == ids[i]
  {
    hide Agree, AfterRaid, Complete, OnlyResolved, ResultOf, Wins;
    if ids == [] {
      NothingResolved(b.tracker);
    } else {
      var n := |ids| - 1;
      var id, before := ids[n], AfterRaids(b, ids[..n], defense, stakes);
      RaidsResolve(b, a, ids[..n], defense, stakes);
      assert id !in ids[..n] && Targets(b.tracker, id, a);
      ResolveOneMore(b.tracker, before.tracker, ids[..n], id, true);
      ResultNames(before, id, defense(id));
      AfterRaidTracker(before, id, defense(id), stakes(id));
      ResolveOneMore(b.tracker, before.tracker, ids[..n], id,
                     Wins(before.tracker.expeditions[id].attackPower, defense(id)));
      CompleteAgrees(before.tracker, id, Wins(before.tracker.expeditions[id].attackPower, defense(id)));
      assert ids[..n] + [id] == ids;
    }
  }

  /**
   * Every due raid is won exactly when it outweighs the defense, is marked so in the tracker, and burns its stake
   * bets exactly when it is lost.
   */
  lemma {:induction false} RaidsAreDecided(b: Battle, a: AsteroidId, ids: seq<ExpeditionId>,
                                           defense: ExpeditionId -> real, stakes: ExpeditionId -> seq<Payout>)
    requires Agree(b.tracker) && Due(b.tracker, a, ids)
    ensures |Results(b, ids, defense, stakes)| == |ids|
    ensures var t' := AfterRaids(b, ids, defense, stakes).tracker;
            forall i :: 0 <= i < |ids| ==>
              Decided(b.tracker, t', ids[i], defense(ids[i]), Results(b, ids, defense, stakes)[i])
  {
    hide Agree, AfterRaid, ResultOf, Decided;
    RaidsResolve(b, a, ids, defense, stakes);
    if ids != [] {
      var n := |ids| - 1;
      OneMoreRaid(b, a, ids, defense, stakes);
      RaidsAreDecided(b, a, ids[..n], defense, stakes);
      RaidsResolve(b, a, ids[..n], defense, stakes);
      var before := AfterRaids(b, ids[..n], defense, stakes);
      var results := Results(b, ids, defense, stakes);
      forall i | 0 <= i < |ids|
        ensures Decided(b.tracker, AfterRaids(b, ids, defense, stakes).tracker, ids[i], defense(ids[i]), results[i])
      {
        if i < n {
          assert ids[..n][i] == ids[i];
          StaysDecided(b.tracker, before, ids[i], defense(ids[i]), results[i], ids[n], defense(ids[n]), stakes(ids[n]));
        } else {
          OneDecided(b.tracker, before, ids[..n], ids[n], defense(ids[n]), stakes(ids[n]));
        }
      }
    }
  }

  ghost predicate Decided(t: Tracker, t': Tracker, id: ExpeditionId, defense: real, r: RaidResult) {
    && id in t.expeditions && id in t'.expeditions && r.expeditionId == id
    && (r.attackersWon <==> Outweighs(t.expeditions[id].attackPower, defense))
    && t'.expeditions[id].status == (if r.attackersWon then Completed else Failed)
    && r.betsBurned == (if r.attackersWon then 0.0 else StakeBets(t.expeditions[id]))
  }

  lemma OneDecided(t: Tracker, b: Battle, ids: seq<ExpeditionId>, id: ExpeditionId, defense: real, stakes: seq<Payout>)
    requires OnlyResolved(t, b.tracker, ids) && id !in ids && Raiding(b.tracker, id)
    ensures Decided(t, AfterRaid(b, id, defense, stakes).tracker, id, defense, ResultOf(b, id, defense))
  {
    hide Stolen, StakeBets;
    assert b.tracker.expeditions[id] == t.expeditions[id];
  }

  lemma StaysDecided(t: Tracker, b: Battle, x: ExpeditionId, power: real, r: RaidResult, id: ExpeditionId, defense: real,
                     stakes: seq<Payout>)
    requires Decided(t, b.tracker, x, power, r) && Raiding(b.tracker, id)
    ensures Decided(t, AfterRaid(b, id, defense, stakes).tracker, x, power, r)
  {
    hide StakeBets, Outweighs;
    AfterRaidTracker(b, id, defense, stakes);
  }

  /** No raid touches another asteroid's pot. */
  lemma OtherPotsStay(b: Battle, id: ExpeditionId, defense: real, stakes: seq<Payout>, a: AsteroidId)
    requires Raiding(b.tracker, id) && b.tracker.expeditions[id].target != a
    ensures Held(AfterRaid(b, id, defense, stakes).pots, a) == Held(b.pots, a)
  {
  }

  lemma RaidDrainsPot(b: Battle, a: AsteroidId, id: ExpeditionId, defense: real, stakes: seq<Payout>)
    requires Targets(b.tracker, id, a) && defense >= 0.0 && Held(b.pots, a) >= 0.0
    ensures var r := ResultOf(b, id, defense); var b' := AfterRaid(b, id, defense, stakes);
            && Held(b'.pots, a) == Held(b.pots, a) - r.stolenYield
            && 0.0 <= r.stolenYield <= (if r.attackersWon then MAX_STEAL_PERCENT * Held(b.pots, a) else 0.0)
  {
    hide Stolen;
    var e := b.tracker.expeditions[id];
    if Wins(e.attackPower, defense) {
      StolenBounds(Held(b.pots, a), e.attackPower, defense);
    }
  }

  /** What a sweep leaves of a pot seeded with `seeded`. */
  ghost predicate Drained(seeded: real, pot: real, results: seq<RaidResult>) {
    && pot == seeded - SumStolen(results)
    && 0.0 <= Kept(results) * seeded <= pot <= seeded && Kept(results) > 0.0
    && forall i :: 0 <= i < |results| ==> results[i].stolenYield >= 0.0
  }

  lemma DrainMore(seeded: real, pot: real, results: seq<RaidResult>, r: RaidResult)
    requires Drained(seeded, pot, results) && seeded >= 0.0
    requires 0.0 <= r.stolenYield <= (if r.attackersWon then MAX_STEAL_PERCENT * pot else 0.0)
    ensures Drained(seeded, pot - r.stolenYield, results + [r])
  {
    assert (results + [r])[..|results|] == results;
    var kept := Kept(results);
    assert kept * 0.7 * seeded == 0.7 * (kept * seeded);
  }

  lemma OneMoreRaid(b: Battle, a: AsteroidId, ids: seq<ExpeditionId>,
                    defense: ExpeditionId -> real, stakes: ExpeditionId -> seq<Payout>)
    requires Agree(b.tracker) && Due(b.tracker, a, ids) && ids != []
    ensures var n := |ids| - 1; var before := AfterRaids(b, ids[..n], defense, stakes); var id := ids[n];
            && Due(b.tracker, a, ids[..n])
            && Targets(before.tracker, id, a) && Raiding(before.tracker, id)
            && AfterRaids(b, ids, defense, stakes) == AfterRaid(before, id, defense(id), stakes(id))
            && Results(b, ids, defense, stakes)
               == Results(b, ids[..n], defense, stakes) + [ResultOf(before, id, defense(id))]
  {
    hide Agree, AfterRaid, ResultOf;
    var n := |ids| - 1;
    RaidsResolve(b, a, ids[..n], defense, stakes);
    assert ids[n] !in ids[..n] && Targets(b.tracker, ids[n], a);
  }

  /**
   * One sweep at one target: the seeded pot falls by exactly what the raids stole, never below
   * 0.7 to the power of the number of wins.
   */
  lemma {:induction false} SweepDrainsPot(b: Battle, a: AsteroidId, ids: seq<ExpeditionId>,
                                          defense: ExpeditionId -> real, stakes: ExpeditionId -> seq<Payout>)
    requires Agree(b.tracker) && Due(b.tracker, a, ids) && Sound(defense) && Held(b.pots, a) >= 0.0
    ensures Drained(Held(b.pots, a), Held(AfterRaids(b, ids, defense, stakes).pots, a), Results(b, ids, defense, stakes))
  {
    if ids != [] {
      hide Agree, Due, AfterRaids, Results, AfterRaid, ResultOf, Held, SumStolen, Kept, Targets, Raiding;
      var n := |ids| - 1;
      OneMoreRaid(b, a, ids, defense, stakes);
      SweepDrainsPot(b, a, ids[..n], defense, stakes);
      var before, id := AfterRaids(b, ids[..n], defense, stakes), ids[n];
      RaidDrainsPot(before, a, id, defense(id), stakes(id));
      DrainMore(Held(b.pots, a), Held(before.pots, a), Results(b, ids[..n], defense, stakes),
                ResultOf(before, id, defense(id)));
    }
  }

  /** Tokens handed out or burned so far. */
  ghost function Outlay(b: Battle): real {
    Total(b.credits) + b.totalBurned
  }

  /** All attackers of the raids. */
  function Crew(t: Tracker, ids: seq<ExpeditionId>): real {
    if ids == [] then 0.0
    else Crew(t, ids[..|ids| - 1])
         + (if ids[|ids| - 1] in t.expeditions then |t.expeditions[ids[|ids| - 1]].attackers| as real else 0.0)
  }

  /** A raid hands out what it stole and burned, short of less than a token per attacker. */
  lemma RaidPaysOut(b: Battle, id: ExpeditionId, defense: real, stakes: seq<Payout>)
    requires Raiding(b.tracker, id) && defense >= 0.0 && Held(b.pots, b.tracker.expeditions[id].target) >= 0.0
    requires b.tracker.expeditions[id].attackers != [] && BetsNonNegative(b.tracker)
    ensures var r := ResultOf(b, id, defense); var gained := Outlay(AfterRaid(b, id, defense, stakes)) - Outlay(b);
            && gained <= r.stolenYield + r.betsBurned
            && r.stolenYield + r.betsBurned <= gained + |b.tracker.expeditions[id].attackers| as real
  {
    hide Stolen, CreditEach, Complete, Lose;
    var e := b.tracker.expeditions[id];
    if Wins(e.attackPower, defense) {
      WinCredits(b, e, defense);
    } else {
      LoseCredits(b, e, stakes);
    }
  }

  ghost predicate PaidOut(before: Battle, after: Battle, results: seq<RaidResult>, crew: real) {
    var gained := Outlay(after) - Outlay(before);
    && gained <= SumStolen(results) + SumBurned(results)
    && SumStolen(results) + SumBurned(results) <= gained + crew
  }

  lemma PaidOutMore(b: Battle, b1: Battle, b2: Battle, results: seq<RaidResult>, r: RaidResult, crew: real, more: real)
    requires PaidOut(b, b1, results, crew)
    requires var gained := Outlay(b2) - Outlay(b1);
             gained <= r.stolenYield + r.betsBurned && r.stolenYield + r.betsBurned <= gained + more
    ensures PaidOut(b, b2, results + [r], crew + more)
  {
    hide Outlay;
    assert (results + [r])[..|results|] == results;
  }

  /** Over a whole sweep nothing is minted: payouts and burns stay within what was stolen and forfeited. */
  lemma {:induction false} SweepPaysOut(b: Battle, a: AsteroidId, ids: seq<ExpeditionId>,
                                        defense: ExpeditionId -> real, stakes: ExpeditionId -> seq<Payout>)
    requires Agree(b.tracker) && Due(b.tracker, a, ids) && Sound(defense) && Held(b.pots, a) >= 0.0
    requires BetsNonNegative(b.tracker)
    ensures PaidOut(b, AfterRaids(b, ids, defense, stakes), Results(b, ids, defense, stakes), Crew(b.tracker, ids))
  {
    if ids != [] {
      hide Agree, Due, AfterRaids, Results, AfterRaid, ResultOf, Held, SumStolen, Outlay, PaidOut;
      var n := |ids| - 1;
      var before, id := AfterRaids(b, ids[..n], defense, stakes), ids[n];
      OneMoreRaid(b, a, ids, defense, stakes);
      SweepPaysOut(b, a, ids[..n], defense, stakes);
      SweepDrainsPot(b, a, ids[..n], defense, stakes);
      RaidsResolve(b, a, ids[..n], defense, stakes);
      SameCrew(b.tracker, before.tracker, ids, id);
      RaidPaysOut(before, id, defense(id), stakes(id));
      PaidOutMore(b, before, AfterRaid(before, id, defense(id), stakes(id)), Results(b, ids[..n], defense, stakes),
                  ResultOf(before, id, defense(id)), Crew(b.tracker, ids[..n]),
                  |b.tracker.expeditions[id].attackers| as real);
    }
  }

  lemma SameCrew(t: Tracker, t': Tracker, ids: seq<ExpeditionId>, id: ExpeditionId)
    requires ids != [] && id == ids[|ids| - 1] && OnlyResolved(t, t', ids[..|ids| - 1])
    requires Raiding(t', id) && Agree(t') && BetsNonNegative(t)
    ensures id in t.expeditions && t.expeditions[id].attackers == t'.expeditions[id].attackers != []
    ensures BetsNonNegative(t')
  {
    hide Listed;
    assert WellManned(t', id, t'.expeditions[id]);
    forall x, w | x in t'.expeditions && w in t'.expeditions[x].bets ensures t'.expeditions[x].bets[w] >= 0.0 {
      assert t.expeditions[x].bets == t'.expeditions[x].bets;
    }
  }

  // ----- The engine in place -----

  class RaidEngine {
    const tracker: ExpeditionTracker
    var pendingDiscoveryYield: map<AsteroidId, real>
    /** The wallets' pending yield, held by the stake manager. */
    var pendingYield: map<Wallet, real>
    var totalBurned: real

    ghost function Contents(): Battle
      reads this, tracker
    {
      Battle(tracker.Contents(), pendingDiscoveryYield, pendingYield, totalBurned)
    }

    constructor (tracker: ExpeditionTracker)
      ensures this.tracker == tracker
      ensures Contents() == Battle(tracker.Contents(), map[], map[], 0.0)
    {
      this.tracker, pendingDiscoveryYield, pendingYield, totalBurned := tracker, map[], map[], 0.0;
    }

    method SetPendingYield(a: AsteroidId, amount: real)
      modifies this
      ensures Contents() == old(Contents()).(pots := old(pendingDiscoveryYield)[a := amount])
    {
      pendingDiscoveryYield := pendingDiscoveryYield[a := amount];
    }

    method AddPendingYield(w: Wallet, amount: real)
      modifies this`pendingYield
      ensures pendingYield == Credit(old(pendingYield), w, amount)
    {
      pendingYield := pendingYield[w := Held(pendingYield, w) + amount];
    }

    method SumBets(bets: map<Wallet, real>) returns (total: real)
      ensures total == Total(bets)
    {
      total := 0.0;
      var todo := bets.Keys;
      while todo != {}
        invariant todo <= bets.Keys && total == Total(bets - todo)
        decreases |todo|
      {
        var w :| w in todo;
        TotalPut(bets - todo, w, bets[w]);
        assert bets - (todo - {w}) == (bets - todo)[w := bets[w]];
        total := total + bets[w];
        todo := todo - {w};
      }
      assert bets - {} == bets;
    }

    method DistributeDefenderSpoils(stakes: seq<Payout>, bets: real)
      modifies this`pendingYield, this`totalBurned
      ensures var payouts := SpoilsOf(stakes, SpoilsPool(bets));
              && pendingYield == CreditPayouts(old(pendingYield), payouts)
              && totalBurned == old(totalBurned) + bets - SumAmounts(payouts)
    {
      var spoils := Floor(bets * DEFENDER_SPOILS_PERCENT);
      var burn := bets - spoils;
      if spoils <= 0.0 {
        totalBurned := totalBurned + bets;
        return;
      }
      var totalPower := 0.0;
      for i := 0 to |stakes|
        invariant totalPower == SumAmounts(stakes[..i])
      {
        assert stakes[..i + 1][..i] == stakes[..i];
        totalPower := totalPower + stakes[i].amount;
      }
      assert stakes[..|stakes|] == stakes;
      if totalPower <= 0.0 {
        totalBurned := totalBurned + bets;
        return;
      }
      var distributed := 0.0;
      for i := 0 to |stakes|
        invariant pendingYield == CreditPayouts(old(pendingYield), Spoils(stakes[..i], totalPower, spoils))
        invariant distributed == SumAmounts(Spoils(stakes[..i], totalPower, spoils))
        invariant totalBurned == old(totalBurned)
      {
        hide SpoilsShare;
        assert stakes[..i + 1][..i] == stakes[..i];
        var payout := SpoilsShare(stakes[i].amount, totalPower, spoils);
        ghost var paid := Spoils(stakes[..i], totalPower, spoils);
        if payout > 0.0 {
          SumAmountsAppend(paid, Payout(stakes[i].wallet, payout));
          assert (paid + [Payout(stakes[i].wallet, payout)])[..|paid|] == paid;
          distributed := distributed + payout;
          AddPendingYield(stakes[i].wallet, payout);
        } else {
          assert paid + [] == paid;
        }
      }
      totalBurned := totalBurned + burn + (spoils - distributed);
    }

    method PayAttackers(attackers: seq<Wallet>, share: real)
      modifies this`pendingYield
      ensures pendingYield == CreditEach(old(pendingYield), attackers, share)
    {
      for i := 0 to |attackers|
        invariant pendingYield == CreditEach(old(pendingYield), attackers[..i], share)
      {
        assert attackers[..i + 1][..i] == attackers[..i];
        if share > 0.0 {
          AddPendingYield(attackers[i], share);
        }
      }
      assert attackers[..|attackers|] == attackers;
    }

    method AttackersWin(e: Expedition, defense: real) returns (stolen: real)
      modifies this
      ensures stolen == Stolen(Held(old(pendingDiscoveryYield), e.target), e.attackPower, defense)
      ensures Contents() == Win(old(Contents()), e, defense)
    {
      var pending := Held(pendingDiscoveryYield, e.target);
      hide Stolen, ShareOf, CreditEach;
      stolen := Stolen(pending, e.attackPower, defense);
      pendingDiscoveryYield := pendingDiscoveryYield[e.target := pending - stolen];
      PayAttackers(e.attackers, ShareOf(stolen, |e.attackers|));
    }

    method DefendersWin(e: Expedition, stakes: seq<Payout>) returns (burned: real)
      modifies this
      ensures burned == StakeBets(e)
      ensures Contents() == Lose(old(Contents()), e, stakes)
    {
      burned := SumBets(e.bets);
      if burned > 0.0 {
        DistributeDefenderSpoils(stakes, burned);
      }
    }

    /** `None` when the raid is unknown or no longer active. */
    method ResolveRaid(id: ExpeditionId, defense: real, stakes: seq<Payout>) returns (r: Option<RaidResult>)
      requires Agree(tracker.Contents())
      modifies this, tracker
      ensures r.Some? == Raiding(old(tracker.Contents()), id)
      ensures r.None? ==> Contents() == old(Contents())
      ensures r.Some? ==>
                && r.value == ResultOf(old(Contents()), id, defense)
                && Contents() == AfterRaid(old(Contents()), id, defense, stakes)
                && (r.value.attackersWon <==> Outweighs(old(tracker.expeditions[id].attackPower), defense))
                && tracker.expeditions[id].status == (if r.value.attackersWon then Completed else Failed)
      ensures Agree(tracker.Contents())
    {
      hide Agree, Win, Lose, StakeBets, Stolen, Complete;
      if id !in tracker.expeditions || !tracker.expeditions[id].status.Active? {
        return None;
      }
      var e := tracker.expeditions[id];
      var attackersWon := e.attackPower > defense * DEFENSE_ADVANTAGE;
      var stolen, burned := 0.0, 0.0;
      if attackersWon {
        stolen := AttackersWin(e, defense);
      } else {
        burned := DefendersWin(e, stakes);
      }
      CompletedAs(tracker.Contents(), id, attackersWon);
      tracker.CompleteExpedition(id, attackersWon);
      r := Some(RaidResult(id, attackersWon, stolen, burned));
    }

    /** `ids` lists the active expeditions against the asteroid in map order. */
    method ResolveAllRaids(ids: seq<ExpeditionId>, defense: ExpeditionId -> real, stakes: ExpeditionId -> seq<Payout>)
      returns (results: seq<RaidResult>)
      requires Agree(tracker.Contents())
      modifies this, tracker
      ensures Contents() == AfterRaids(old(Contents()), ids, defense, stakes)
      ensures results == Results(old(Contents()), ids, defense, stakes)
      ensures Agree(tracker.Contents())
    {
      hide Agree, AfterRaid, ResultOf;
      results := [];
      for i := 0 to |ids|
        invariant Contents() == AfterRaids(old(Contents()), ids[..i], defense, stakes)
        invariant results == Results(old(Contents()), ids[..i], defense, stakes)
        invariant Agree(tracker.Contents())
      {
        assert ids[..i + 1][..i] == ids[..i];
        var r := ResolveRaid(ids[i], defense(ids[i]), stakes(ids[i]));
        if r.Some? {
          results := results + [r.value];
        }
      }
      assert ids[..|ids|] == ids;
    }
  }
}
