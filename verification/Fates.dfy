/** Who gets each wager: over every run, what became of a raid decides whom its deposit is paid to. */
module Fates {
  import opened Prelude
  import opened Settlement
  import opened Expeditions
  import opened RaidCombat
  import opened GameWorlds
  import BetLedger

  // ----- What an event decides -----

  /** What became of a deposit's raid; a lost one remembers the defenders and the loss split in force. */
  datatype Fate = Refused | Abandoned | Won | Lost(defenders: seq<Payout>, split: LossSplit)

  ghost predicate Rides(wagers: map<ExpeditionId, WagerEntry>, x: ExpeditionId, d: WagerId) {
    x in wagers && wagers[x].wagerId == d
  }

  /** A raid of the deposit that the sweep of `ids` resolves. */
  ghost predicate Resolving(w: World, ids: seq<ExpeditionId>, x: ExpeditionId, d: WagerId) {
    x in ids && x in w.battle.tracker.expeditions && Rides(w.wagers, x, d)
  }

  ghost function Outcome(w: World, x: ExpeditionId, c: Conditions): Fate
    requires x in w.battle.tracker.expeditions
  {
    if Outweighs(w.battle.tracker.expeditions[x].attackPower, c.defense(x)) then Won else Lost(c.spoils(x), c.split)
  }

  /** What the event decides for deposit `d`, if anything. */
  ghost function Verdict(w: World, e: Event, d: WagerId): Option<Fate> {
    match e
    case StartWagered(r, entry, now) => if entry.wagerId == d && !Accepted(w, r) then Some(Refused) else None
    case LeaveRaid(wallet, now) =>
      if CanLeave(w.battle.tracker, wallet) && Rides(w.wagers, w.battle.tracker.attackerOn[wallet], d) then Some(Abandoned)
      else None
    case ResolveDue(target, others, ids, c) =>
      if x :| Resolving(w, ids, x, d) then Some(Outcome(w, x, c)) else None
    case _ => None
  }

  /** `w` is reached from a fresh world by `events`, which have decided `fate` for deposit `d`. */
  ghost predicate Tells(events: seq<Event>, w: World, d: WagerId, fate: Option<Fate>) {
    if events == [] then w == NEW_WORLD && fate == None
    else
      var past, e := events[..|events| - 1], events[|events| - 1];
      exists before, f :: Tells(past, before, d, f) && BetLedger.Inv(before.ledger) && Enabled(before, e)
                          && w == Step(before, e) && fate == Later(f, before, e, d)
  }

  ghost function Later(fate: Option<Fate>, w: World, e: Event, d: WagerId): Option<Fate> {
    var decided := Verdict(w, e, d);
    if decided.Some? then decided else fate
  }

  lemma {:induction false} EveryRunTells(events: seq<Event>, w: World, d: WagerId) returns (fate: Option<Fate>)
    requires Reaches(events, w)
    ensures Tells(events, w, d, fate)
  {
    hide Enabled, Step, Later, NEW_WORLD;
    if events == [] {
      fate := None;
    } else {
      var past, e := events[..|events| - 1], events[|events| - 1];
      var before :| Reaches(past, before) && BetLedger.Inv(before.ledger) && Enabled(before, e) && w == Step(before, e);
      var f := EveryRunTells(past, before, d);
      fate := Later(f, before, e, d);
    }
  }

  // ----- What a fate entitles to -----

  /** The legs pay the deposit as its fate demands. */
  ghost predicate LegsFollow(legs: seq<Leg>, entry: WagerEntry, fate: Fate) {
    match fate
    case Refused => ReturnsWhole(legs, entry)
    case Won => ReturnsWhole(legs, entry)
    case Abandoned => BurnsWhole(legs, entry)
    case Lost(defenders, split) => SplitByShares(legs, entry, defenders, split)
  }

  ghost predicate Follows(p: Plan, entry: WagerEntry, fate: Fate) {
    LegsFollow(BuildLegs(p), entry, fate)
  }

  ghost predicate AllFollow(plans: seq<Plan>, deposits: map<WagerId, WagerEntry>, d: WagerId, fate: Option<Fate>) {
    forall i :: 0 <= i < |plans| && plans[i].wagerId == d ==>
      d in deposits && fate.Some? && Follows(plans[i], deposits[d], fate.value)
  }

  /** A deposit with a fate has one plan, which follows it; one without has none. Only refused ones were never booked. */
  ghost predicate Judged(w: World, d: WagerId, fate: Option<Fate>) {
    && (d in w.booked ==> d in w.deposits)
    && PlansFor(w.plans, d) == (if fate.Some? then 1 else 0)
    && AllFollow(w.plans, w.deposits, d, fate)
    && (fate.Some? ==> d in w.deposits && (fate.value.Refused? <==> d !in w.booked))
  }

  /** Nothing about the deposit changes. */
  lemma StaysJudged(w: World, w': World, d: WagerId, fate: Option<Fate>)
    requires Judged(w, d, fate) && w'.plans == w.plans && (d in w'.booked ==> d in w'.deposits)
    requires d in w.deposits ==> d in w'.deposits && w'.deposits[d] == w.deposits[d] && (d in w'.booked <==> d in w.booked)
    ensures Judged(w', d, fate)
  {
    hide Follows;
  }

  lemma OtherPlan(w: World, w': World, d: WagerId, p: Plan, fate: Option<Fate>)
    requires Judged(w, d, fate) && w'.plans == w.plans + [p] && p.wagerId != d && (d in w'.booked ==> d in w'.deposits)
    requires d in w.deposits ==> d in w'.deposits && w'.deposits[d] == w.deposits[d] && (d in w'.booked <==> d in w.booked)
    ensures Judged(w', d, fate)
  {
    hide Follows, PlansFor;
    PlansForMore(w.plans, p, d);
    forall i | 0 <= i < |w'.plans| && w'.plans[i].wagerId == d
      ensures d in w'.deposits && fate.Some? && Follows(w'.plans[i], w'.deposits[d], fate.value)
    {
      assert i < |w.plans| && w'.plans[i] == w.plans[i];
    }
  }

  /** The deposit's first plan. */
  lemma FirstPlan(w: World, w': World, d: WagerId, p: Plan, fate: Fate)
    requires PlansFor(w.plans, d) == 0 && w'.plans == w.plans + [p] && p.wagerId == d
    requires d in w'.deposits && Follows(p, w'.deposits[d], fate) && (fate.Refused? <==> d !in w'.booked)
    ensures Judged(w', d, Some(fate))
  {
    hide Follows, PlansFor;
    PlansForMore(w.plans, p, d);
    NoneOfThem(w.plans, d);
  }

  lemma {:induction false} NoneOfThem(plans: seq<Plan>, d: WagerId)
    requires PlansFor(plans, d) == 0
    ensures forall i :: 0 <= i < |plans| ==> plans[i].wagerId != d
  {
    if plans != [] {
      NoneOfThem(plans[..|plans| - 1], d);
    }
  }

  // ----- One plan is dispatched -----

  /** A riding deposit has no plan yet, is booked, and is the entry's. */
  lemma RidingIsOpen(w: World, pending: set<ExpeditionId>, x: ExpeditionId)
    requires WorldInv(w, pending) && x in w.wagers
    ensures var d := w.wagers[x].wagerId;
            PlansFor(w.plans, d) == 0 && d in w.deposits && w.deposits[d] == w.wagers[x] && d in w.booked
    ensures HasOpenPool(w, x) && w.wagers[x].wagerId in w.ledger.pools && w.wagers[x].amount > 0.0
  {
    hide BetLedger.Inv, Tracked, AllFair, LocksAgree, Live, OnePerDeposit;
    LiveHasPool(w, x);
    RidingIsLive(w.wagers, x);
    var d := w.wagers[x].wagerId;
    assert PlansFor(w.plans, d) + (if Live(w.wagers, d) then 1 else 0) == (if d in w.deposits then 1 else 0);
  }

  lemma RidingIsLive(wagers: map<ExpeditionId, WagerEntry>, x: ExpeditionId)
    requires x in wagers
    ensures Live(wagers, wagers[x].wagerId)
  {
  }

  lemma DispatchJudges(w: World, x: ExpeditionId, side: Side, plan: Plan, now: int, pending: set<ExpeditionId>, d: WagerId,
                       fate: Option<Fate>, decided: Fate)
    requires WorldInv(w, pending) && x in w.wagers && w.wagers[x].wagerId in w.ledger.pools && Judged(w, d, fate)
    requires plan.wagerId == w.wagers[x].wagerId && Follows(plan, w.wagers[x], decided) && !decided.Refused?
    ensures Judged(Dispatched(w, x, side, plan, now), d, if Rides(w.wagers, x, d) then Some(decided) else fate)
  {
    hide WorldInv, Judged, Follows, PlansFor, BetLedger.Close;
    RidingIsOpen(w, pending, x);
    JudgedBooks(w, d, fate);
    var w' := Dispatched(w, x, side, plan, now);
    if Rides(w.wagers, x, d) {
      FirstPlan(w, w', d, plan, decided);
    } else {
      OtherPlan(w, w', d, plan, fate);
    }
  }

  // ----- Starting and leaving -----

  lemma StartJudges(w: World, r: Request, entry: WagerEntry, now: int, d: WagerId, fate: Option<Fate>)
    requires WorldInv(w, {}) && Enabled(w, StartWagered(r, entry, now)) && Judged(w, d, fate)
    ensures Judged(StartWithWager(w, r, entry, now), d, if entry.wagerId == d && !Accepted(w, r) then Some(Refused) else fate)
  {
    hide WorldInv, Judged, Follows, PlansFor, Accepted, Create, BetLedger.Place, BetLedger.CreatePool, BuildLegs, ExactLegs;
    var w' := StartWithWager(w, r, entry, now);
    NewDepositIsNew(w, entry.wagerId);
    JudgedBooks(w, d, fate);
    if Accepted(w, r) {
      StaysJudged(w, w', d, fate);
    } else if entry.wagerId == d {
      ForfeitAndRefundAreExact(entry);
      RefundFollows(entry);
      FirstPlan(w, w', d, RefundPlan(entry), Refused);
    } else {
      OtherPlan(w, w', d, RefundPlan(entry), fate);
    }
  }

  lemma RefundFollows(entry: WagerEntry)
    requires ReturnsWhole(BuildLegs(RefundPlan(entry)), entry)
    ensures Follows(RefundPlan(entry), entry, Refused)
  {
  }

  /** A fresh wager id has no deposit, no pool, no booking and no plan. */
  lemma NewDepositIsNew(w: World, d: WagerId)
    requires WorldInv(w, {}) && d !in w.deposits
    ensures d !in w.ledger.pools && PlansFor(w.plans, d) == 0
  {
    hide BetLedger.Inv, Tracked, Backed, AllFair, LocksAgree, Live;
    assert PlansFor(w.plans, d) + (if Live(w.wagers, d) then 1 else 0) == (if d in w.deposits then 1 else 0);
  }

  lemma JudgedBooks(w: World, d: WagerId, fate: Option<Fate>)
    requires Judged(w, d, fate)
    ensures d in w.booked ==> d in w.deposits
    ensures d !in w.deposits ==> fate.None?
  {
    hide AllFollow, PlansFor;
  }

  lemma LeaveJudges(w: World, wallet: Wallet, now: int, d: WagerId, fate: Option<Fate>)
    requires WorldInv(w, {}) && Judged(w, d, fate) && CanLeave(w.battle.tracker, wallet)
    ensures Judged(Abandon(w, wallet, now), d,
                   if Rides(w.wagers, w.battle.tracker.attackerOn[wallet], d) then Some(Abandoned) else fate)
  {
    hide WorldInv, Judged, Follows, PlansFor, Leave, BuildLegs, ExactLegs, Dispatched;
    var id := w.battle.tracker.attackerOn[wallet];
    var left := w.(battle := w.battle.(tracker := Leave(w.battle.tracker, wallet)));
    LeftInv(w, wallet);
    JudgedBooks(w, d, fate);
    StaysJudged(w, left, d, fate);
    if id in w.wagers {
      RidingIsOpen(left, {id}, id);
      ForfeitAndRefundAreExact(w.wagers[id]);
      ForfeitFollows(w.wagers[id]);
      DispatchJudges(left, id, Defender, ForfeitPlan(w.wagers[id]), now, {id}, d, fate, Abandoned);
    }
  }

  lemma ForfeitFollows(entry: WagerEntry)
    requires BurnsWhole(BuildLegs(ForfeitPlan(entry)), entry)
    ensures Follows(ForfeitPlan(entry), entry, Abandoned)
  {
  }

  lemma LeftInv(w: World, wallet: Wallet)
    requires WorldInv(w, {}) && CanLeave(w.battle.tracker, wallet)
    ensures WorldInv(w.(battle := w.battle.(tracker := Leave(w.battle.tracker, wallet))), {w.battle.tracker.attackerOn[wallet]})
  {
    hide Tracked, Ledgered, Sums, Leave;
    LeaveTracks(w.battle.tracker, w.wagers, wallet);
    LedgerIgnoresBattle(w, w.(battle := w.battle.(tracker := Leave(w.battle.tracker, wallet))));
  }

  // ----- A sweep -----

  ghost function FateOfResult(r: RaidResult, c: Conditions): Fate {
    if r.attackersWon then Won else Lost(c.spoils(r.expeditionId), c.split)
  }

  /** What the results of a sweep decide for the deposit. */
  ghost function FateIn(wagers: map<ExpeditionId, WagerEntry>, results: seq<RaidResult>, c: Conditions, d: WagerId): Option<Fate> {
    if results == [] then None
    else
      var r := results[|results| - 1];
      if Rides(wagers, r.expeditionId, d) then Some(FateOfResult(r, c))
      else FateIn(wagers, results[..|results| - 1], c, d)
  }

  /** The plan of one settled wager follows its result. */
  lemma SettlementFollows(w: World, r: RaidResult, stakes: seq<Payout>, split: LossSplit, pending: set<ExpeditionId>)
    requires WorldInv(w, pending) && r.expeditionId in w.wagers && NonNegative(stakes) && ValidSplit(split)
    ensures BetLedger.Inv(w.ledger) && HasOpenPool(w, r.expeditionId)
    ensures Follows(SettlementPlan(w.wagers[r.expeditionId], ResolutionOf(w, r, stakes, split)), w.wagers[r.expeditionId],
                    if r.attackersWon then Won else Lost(stakes, split))
  {
    hide BetLedger.Inv, Tracked, Backed, OnePerDeposit, Sums, Resolve, BuildLegs, SettlementPlan, ReturnsWhole, SplitByShares;
    LiveHasPool(w, r.expeditionId);
    SoleBet(w, r.expeditionId);
    WagerGoesTo(w.wagers[r.expeditionId], WinningSide(r), stakes, split);
  }

  lemma SettledJudges(w: World, target: AsteroidId, others: seq<AsteroidId>, r: RaidResult, c: Conditions,
                      pending: set<ExpeditionId>, d: WagerId, fate: Option<Fate>)
    requires WorldInv(w, pending) && NonNegative(c.spoils(r.expeditionId)) && ValidSplit(c.split) && Judged(w, d, fate)
    ensures BetLedger.Inv(w.ledger)
    ensures Settled(w, target, others, r, c.spoils(r.expeditionId), c.split, c.now).wagers == w.wagers - {r.expeditionId}
    ensures Judged(Settled(w, target, others, r, c.spoils(r.expeditionId), c.split, c.now), d,
                   if Rides(w.wagers, r.expeditionId, d) then Some(FateOfResult(r, c)) else fate)
  {
    InvBooks(w, pending);
    hide *;
    var x, stakes := r.expeditionId, c.spoils(r.expeditionId);
    var moved := w.(vaults := RaidVaults.Moved(w.vaults, target, others, MoveOf(w, r, stakes, c.split)));
    MovedInv(w, target, others, r, stakes, c.split, pending);
    JudgedBooks(w, d, fate);
    StaysJudged(w, moved, d, fate);
    if x in w.wagers {
      RidingIsOpen(w, pending, x);
    }
    SettledIs(w, target, others, r, c);
    if x in w.wagers {
      SettlementFollows(w, r, stakes, c.split, pending);
      var plan := SettlementPlan(w.wagers[x], ResolutionOf(w, r, stakes, c.split));
      PlanNames(w.wagers[x], ResolutionOf(w, r, stakes, c.split));
      ResultFate(r, c);
      DispatchJudges(moved, x, WinningSide(r), plan, c.now, pending, d, fate, FateOfResult(r, c));
    } else {
      NoRide(w.wagers, x, d);
    }
  }

  lemma ResultFate(r: RaidResult, c: Conditions)
    ensures FateOfResult(r, c) == if r.attackersWon then Won else Lost(c.spoils(r.expeditionId), c.split)
  {
  }

  lemma NoRide(wagers: map<ExpeditionId, WagerEntry>, x: ExpeditionId, d: WagerId)
    requires x !in wagers
    ensures !Rides(wagers, x, d)
  {
  }

  lemma SettledIs(w: World, target: AsteroidId, others: seq<AsteroidId>, r: RaidResult, c: Conditions)
    requires BetLedger.Inv(w.ledger) && (r.expeditionId in w.wagers ==> HasOpenPool(w, r.expeditionId))
    ensures var x, stakes := r.expeditionId, c.spoils(r.expeditionId);
            var moved := w.(vaults := RaidVaults.Moved(w.vaults, target, others, MoveOf(w, r, stakes, c.split)));
            var w' := Settled(w, target, others, r, stakes, c.split, c.now);
            && w'.wagers == w.wagers - {x}
            && if x in w.wagers
               then w.wagers[x].wagerId in w.ledger.pools
                    && w' == Dispatched(moved, x, WinningSide(r), SettlementPlan(w.wagers[x], ResolutionOf(w, r, stakes, c.split)), c.now)
               else w' == moved
  {
    hide BetLedger.Inv, RaidVaults.Moved, MoveOf, SettlementPlan, ResolutionOf, BetLedger.Close;
  }

  lemma PlanNames(entry: WagerEntry, r: Resolution)
    ensures SettlementPlan(entry, r).wagerId == entry.wagerId
  {
  }

  lemma InvBooks(w: World, pending: set<ExpeditionId>)
    requires WorldInv(w, pending)
    ensures BetLedger.Inv(w.ledger)
  {
  }

  lemma MovedInv(w: World, target: AsteroidId, others: seq<AsteroidId>, r: RaidResult, stakes: seq<Payout>, split: LossSplit,
                 pending: set<ExpeditionId>)
    requires WorldInv(w, pending)
    ensures BetLedger.Inv(w.ledger)
    ensures WorldInv(w.(vaults := RaidVaults.Moved(w.vaults, target, others, MoveOf(w, r, stakes, split))), pending)
  {
    InvBooks(w, pending);
    hide Tracked, Ledgered, Sums, MoveOf, RaidVaults.Moved, BetLedger.Inv;
    LedgerIgnoresBattle(w, w.(vaults := RaidVaults.Moved(w.vaults, target, others, MoveOf(w, r, stakes, split))));
    MovedStaysSolvent(w.vaults, target, others, MoveOf(w, r, stakes, split));
  }

  ghost predicate DistinctRaids(results: seq<RaidResult>) {
    forall i, j :: 0 <= i < j < |results| ==> results[i].expeditionId != results[j].expeditionId
  }

  lemma {:induction false} SettleAllJudges(w: World, target: AsteroidId, others: seq<AsteroidId>, results: seq<RaidResult>,
                                           c: Conditions, pending: set<ExpeditionId>, d: WagerId, fate: Option<Fate>)
    requires WorldInv(w, pending) && FairConditions(c, results) && DistinctRaids(results) && Judged(w, d, fate)
    ensures BetLedger.Inv(w.ledger)
    ensures var decided := FateIn(w.wagers, results, c, d);
            Judged(SettleAll(w, target, others, results, c), d, if decided.Some? then decided else fate)
    ensures SettleAll(w, target, others, results, c).wagers == w.wagers - Ended(results)
  {
    InvBooks(w, pending);
    hide *;
    EndedMoreWagers(w.wagers, results);
    SettleAllUnfolds(w, target, others, results, c, d);
    if results != [] {
      var n := |results| - 1;
      var r := results[n];
      FairPrefix(c, results);
      DistinctPrefix(results);
      SettleAllJudges(w, target, others, results[..n], c, pending, d, fate);
      SettleAllKeepsInv(w, target, others, results[..n], c, pending);
      var decided := FateIn(w.wagers, results[..n], c, d);
      SameRide(w.wagers, Ended(results[..n]), r.expeditionId, d);
      SettledJudges(SettleAll(w, target, others, results[..n], c), target, others, r, c, pending - Ended(results[..n]), d,
                    if decided.Some? then decided else fate);
    }
  }

  lemma SettleAllUnfolds(w: World, target: AsteroidId, others: seq<AsteroidId>, results: seq<RaidResult>, c: Conditions, d: WagerId)
    requires BetLedger.Inv(w.ledger)
    ensures results == [] ==> SettleAll(w, target, others, results, c) == w && FateIn(w.wagers, results, c, d) == None
    ensures results != [] ==>
              var n := |results| - 1; var r := results[n];
              && SettleAll(w, target, others, results, c)
                 == Settled(SettleAll(w, target, others, results[..n], c), target, others, r, c.spoils(r.expeditionId), c.split, c.now)
              && FateIn(w.wagers, results, c, d)
                 == if Rides(w.wagers, r.expeditionId, d) then Some(FateOfResult(r, c)) else FateIn(w.wagers, results[..n], c, d)
  {
    hide BetLedger.Inv, Settled, FateOfResult, Rides;
  }

  lemma SameRide(wagers: map<ExpeditionId, WagerEntry>, gone: set<ExpeditionId>, x: ExpeditionId, d: WagerId)
    requires x !in gone
    ensures Rides(wagers - gone, x, d) <==> Rides(wagers, x, d)
  {
  }

  lemma DistinctPrefix(results: seq<RaidResult>)
    requires DistinctRaids(results) && results != []
    ensures DistinctRaids(results[..|results| - 1])
    ensures results[|results| - 1].expeditionId !in Ended(results[..|results| - 1])
  {
  }

  lemma EndedMoreWagers(wagers: map<ExpeditionId, WagerEntry>, results: seq<RaidResult>)
    ensures if results == [] then wagers - Ended(results) == wagers
            else wagers - Ended(results[..|results| - 1]) - {results[|results| - 1].expeditionId} == wagers - Ended(results)
  {
  }

  /** A deposit rides on at most one raid, so its result is the only one that counts. */
  lemma {:induction false} FateInIs(wagers: map<ExpeditionId, WagerEntry>, results: seq<RaidResult>, c: Conditions, d: WagerId, i: nat)
    requires OnePerDeposit(wagers) && DistinctRaids(results) && i < |results| && Rides(wagers, results[i].expeditionId, d)
    ensures FateIn(wagers, results, c, d) == Some(FateOfResult(results[i], c))
  {
    hide FateOfResult;
    var n := |results| - 1;
    if i < n {
      assert results[i].expeditionId != results[n].expeditionId;
      FateInIs(wagers, results[..n], c, d, i);
    }
  }

  lemma {:induction false} NoFateIn(wagers: map<ExpeditionId, WagerEntry>, results: seq<RaidResult>, c: Conditions, d: WagerId)
    requires forall i :: 0 <= i < |results| ==> !Rides(wagers, results[i].expeditionId, d)
    ensures FateIn(wagers, results, c, d) == None
  {
    if results != [] {
      NoFateIn(wagers, results[..|results| - 1], c, d);
    }
  }

  /** The results of a sweep decide what its raids' powers do. */
  lemma ResultsDecide(w: World, target: AsteroidId, others: seq<AsteroidId>, ids: seq<ExpeditionId>, c: Conditions, d: WagerId)
    requires WorldInv(w, {}) && AllDue(w.battle.tracker, target, ids)
    ensures var results := Results(Seeded(w, target), ids, c.defense, c.stakes);
            && |results| == |ids| && DistinctRaids(results)
            && (forall i :: 0 <= i < |ids| ==> results[i].expeditionId == ids[i])
            && FateIn(w.wagers, results, c, d) == Verdict(w, ResolveDue(target, others, ids, c), d)
  {
    hide BetLedger.Inv, Backed, Sums, Results, AfterRaids, Agree, Outweighs, FateIn, Solo, OnRaid;
    var b := Seeded(w, target);
    var results := Results(b, ids, c.defense, c.stakes);
    RaidsAreDecided(b, target, ids, c.defense, c.stakes);
    assert forall i :: 0 <= i < |ids| ==>
      Decided(b.tracker, AfterRaids(b, ids, c.defense, c.stakes).tracker, ids[i], c.defense(ids[i]), results[i]);
    if x :| Resolving(w, ids, x, d) && Verdict(w, ResolveDue(target, others, ids, c), d) == Some(Outcome(w, x, c)) {
      var i :| 0 <= i < |ids| && ids[i] == x;
      FateInIs(w.wagers, results, c, d, i);
    } else {
      forall i | 0 <= i < |results| ensures !Rides(w.wagers, results[i].expeditionId, d) {
        assert !Resolving(w, ids, ids[i], d);
      }
      NoFateIn(w.wagers, results, c, d);
    }
  }

  lemma SweepJudges(w: World, target: AsteroidId, others: seq<AsteroidId>, ids: seq<ExpeditionId>, c: Conditions, d: WagerId,
                    fate: Option<Fate>)
    requires WorldInv(w, {}) && AllDue(w.battle.tracker, target, ids) && Sensible(c) && Judged(w, d, fate)
    ensures BetLedger.Inv(w.ledger)
    ensures Judged(Swept(w, target, others, ids, c), d, Later(fate, w, ResolveDue(target, others, ids, c), d))
  {
    InvBooks(w, {});
    hide WorldInv, BetLedger.Inv, AllDue, Judged, AfterRaids, Results, SettleAll, Verdict, DistinctRaids, FateIn;
    ResultsDecide(w, target, others, ids, c, d);
    var b := Seeded(w, target);
    var results := Results(b, ids, c.defense, c.stakes);
    if ids == [] {
      NothingDecided(w.wagers, results, c, d);
    } else {
      var fought := w.(battle := AfterRaids(b, ids, c.defense, c.stakes));
      FoughtInv(w, target, ids, c);
      StaysJudged(w, fought, d, fate);
      SettleAllJudges(fought, target, others, results, c, (set id | id in ids), d, fate);
    }
  }

  lemma NothingDecided(wagers: map<ExpeditionId, WagerEntry>, results: seq<RaidResult>, c: Conditions, d: WagerId)
    requires results == []
    ensures FateIn(wagers, results, c, d) == None
  {
  }

  lemma FoughtInv(w: World, target: AsteroidId, ids: seq<ExpeditionId>, c: Conditions)
    requires WorldInv(w, {}) && AllDue(w.battle.tracker, target, ids)
    ensures WorldInv(w.(battle := AfterRaids(Seeded(w, target), ids, c.defense, c.stakes)), set id | id in ids)
  {
    hide BetLedger.Inv, Tracked, Ledgered, Sums, AfterRaids, Results, OnlyResolved;
    var b := Seeded(w, target);
    var fought := w.(battle := AfterRaids(b, ids, c.defense, c.stakes));
    TrackedAgrees(w.battle.tracker, w.wagers);
    RaidsResolve(b, target, ids, c.defense, c.stakes);
    ResolvedTracks(w.battle.tracker, fought.battle.tracker, w.wagers, ids);
    LedgerIgnoresBattle(w, fought);
  }

  // ----- Every run -----

  lemma StartStep(w: World, r: Request, entry: WagerEntry, now: int, d: WagerId, fate: Option<Fate>)
    requires BetLedger.Inv(w.ledger)
    ensures var e := StartWagered(r, entry, now);
            && Step(w, e) == StartWithWager(w, r, entry, now)
            && Later(fate, w, e, d) == if entry.wagerId == d && !Accepted(w, r) then Some(Refused) else fate
  {
    hide BetLedger.Inv, StartWithWager, Accepted;
  }

  lemma LeaveStep(w: World, wallet: Wallet, now: int, d: WagerId, fate: Option<Fate>)
    requires BetLedger.Inv(w.ledger)
    ensures var e := LeaveRaid(wallet, now); var t := w.battle.tracker;
            && Step(w, e) == Abandon(w, wallet, now)
            && (CanLeave(t, wallet) ==>
                  Later(fate, w, e, d) == if Rides(w.wagers, t.attackerOn[wallet], d) then Some(Abandoned) else fate)
            && (!CanLeave(t, wallet) ==> Step(w, e) == w && Later(fate, w, e, d) == fate)
  {
    hide BetLedger.Inv, Forfeit, Leave, Rides;
  }

  lemma SweepStep(w: World, target: AsteroidId, others: seq<AsteroidId>, ids: seq<ExpeditionId>, c: Conditions)
    requires BetLedger.Inv(w.ledger)
    ensures var e := ResolveDue(target, others, ids, c);
            && Step(w, e) == Swept(w, target, others, ids, c)
            && (Enabled(w, e) ==> AllDue(w.battle.tracker, target, ids) && Sensible(c))
  {
    hide BetLedger.Inv, Swept, AllDue, Sensible;
  }

  /** Every other event leaves plans, deposits and bookings alone and decides nothing. */
  lemma QuietStep(w: World, e: Event, d: WagerId, fate: Option<Fate>)
    requires BetLedger.Inv(w.ledger) && !e.StartWagered? && !e.LeaveRaid? && !e.ResolveDue?
    ensures var w' := Step(w, e); w'.plans == w.plans && w'.deposits == w.deposits && w'.booked == w.booked
    ensures Later(fate, w, e, d) == fate
  {
    hide BetLedger.Inv, Create, Accepted, DropStale, BetLedger.Without, RaidVaults.Credited;
  }

  lemma StepJudges(w: World, e: Event, d: WagerId, fate: Option<Fate>)
    requires WorldInv(w, {}) && Enabled(w, e) && Judged(w, d, fate)
    ensures BetLedger.Inv(w.ledger)
    ensures Judged(Step(w, e), d, Later(fate, w, e, d))
  {
    hide *;
    InvBooks(w, {});
    match e
    case StartWagered(r, entry, now) =>
      StartStep(w, r, entry, now, d, fate);
      StartJudges(w, r, entry, now, d, fate);
    case LeaveRaid(wallet, now) =>
      LeaveStep(w, wallet, now, d, fate);
      if CanLeave(w.battle.tracker, wallet) {
        LeaveJudges(w, wallet, now, d, fate);
      }
    case ResolveDue(target, others, ids, c) =>
      SweepStep(w, target, others, ids, c);
      SweepJudges(w, target, others, ids, c, d, fate);
    case _ =>
      JudgedBooks(w, d, fate);
      QuietStep(w, e, d, fate);
      StaysJudged(w, Step(w, e), d, fate);
  }

  lemma {:induction false} RunJudges(events: seq<Event>, w: World, d: WagerId, fate: Option<Fate>)
    requires Tells(events, w, d, fate)
    ensures Reaches(events, w) && Judged(w, d, fate)
  {
    hide Enabled, Step, Later, WorldInv, Judged;
    if events == [] {
      NobodyJudged(d);
    } else {
      var past, e := events[..|events| - 1], events[|events| - 1];
      var before, f :| Tells(past, before, d, f) && BetLedger.Inv(before.ledger) && Enabled(before, e)
                       && w == Step(before, e) && fate == Later(f, before, e, d);
      RunJudges(past, before, d, f);
      ReachableInv(past, before);
      StepJudges(before, e, d, f);
    }
  }

  lemma NobodyJudged(d: WagerId)
    ensures Judged(NEW_WORLD, d, None)
  {
  }

  /**
   * In every run a deposit has a plan exactly when its fate is decided, and the plan pays what the fate demands: the
   * whole wager back when the raid was refused or won, the whole wager burned when it was abandoned, the three shares
   * when it was lost.
   */
  lemma FateDecidesPlan(events: seq<Event>, w: World, d: WagerId, fate: Option<Fate>)
    requires Tells(events, w, d, fate)
    ensures fate.Some? <==> d in w.deposits && !Live(w.wagers, d)
    ensures fate.Some? <==> exists i :: 0 <= i < |w.plans| && w.plans[i].wagerId == d
    ensures forall i :: 0 <= i < |w.plans| && w.plans[i].wagerId == d ==> Follows(w.plans[i], w.deposits[d], fate.value)
    ensures fate.Some? ==> (fate.value.Refused? <==> d !in w.booked)
  {
    RunJudges(events, w, d, fate);
    hide Tells, Follows, Live, PlansFor, Reaches;
    OnePlanPerDeposit(events, w, d);
    SomePlan(w.plans, d);
  }

  lemma {:induction false} SomePlan(plans: seq<Plan>, d: WagerId)
    ensures PlansFor(plans, d) > 0 <==> exists i :: 0 <= i < |plans| && plans[i].wagerId == d
  {
    if plans != [] {
      var n := |plans| - 1;
      SomePlan(plans[..n], d);
      if i :| 0 <= i < |plans| && plans[i].wagerId == d {
        assert i < n ==> plans[..n][i].wagerId == d;
      }
      assert PlansFor(plans, d) > 0 ==> exists i :: 0 <= i < |plans| && plans[i].wagerId == d by {
        if j :| 0 <= j < n && plans[..n][j].wagerId == d {
          assert plans[j].wagerId == d;
        }
      }
    }
  }

  /**
   * A booked deposit is returned whole exactly when its raid was won. It is burned whole exactly when it was abandoned,
   * or lost with nothing for defenders and nothing to recirculate.
   */
  lemma ReturnedExactlyWhenWon(events: seq<Event>, w: World, d: WagerId, fate: Option<Fate>, i: nat)
    requires Tells(events, w, d, fate) && i < |w.plans| && w.plans[i].wagerId == d && d in w.booked
    ensures d in w.deposits && fate.Some?
    ensures ReturnsWhole(BuildLegs(w.plans[i]), w.deposits[d]) <==> fate.value.Won?
    ensures MovedAs(BuildLegs(w.plans[i]), Burn) == w.deposits[d].amount <==>
              fate.value.Abandoned?
              || (fate.value.Lost? && BetShare(w.deposits[d].amount, fate.value.split.defenderBps)
                                      + BetShare(w.deposits[d].amount, fate.value.split.recirculateBps) == 0.0)
  {
    hide *;
    FateDecidesPlan(events, w, d, fate);
    RunJudges(events, w, d, fate);
    PositiveDeposit(events, w, i);
    assert Follows(w.plans[i], w.deposits[d], fate.value);
    WhatFateMeans(w.plans[i], w.deposits[d], fate.value);
  }

  lemma WhatFateMeans(p: Plan, entry: WagerEntry, fate: Fate)
    requires Follows(p, entry, fate) && entry.amount > 0.0
    ensures ReturnsWhole(BuildLegs(p), entry) <==> fate.Won? || fate.Refused?
    ensures MovedAs(BuildLegs(p), Burn) == entry.amount <==>
              fate.Abandoned? || (fate.Lost? && BetShare(entry.amount, fate.split.defenderBps)
                                                + BetShare(entry.amount, fate.split.recirculateBps) == 0.0)
  {
    hide BuildLegs, BetShare, SpoilsOf, PaidTo, MovedTo, MovedAs, ReturnsWhole, BurnsWhole;
    WholeMoves(BuildLegs(p), entry);
  }

  lemma PositiveDeposit(events: seq<Event>, w: World, i: nat)
    requires Reaches(events, w) && i < |w.plans|
    ensures w.plans[i].wagerId in w.deposits && w.deposits[w.plans[i].wagerId].amount > 0.0
  {
    ReachableInv(events, w);
    hide Reaches, Tracked, Ledgered, LocksAgree, Accounted, ExactLegs, BuildLegs;
    assert Fair(w.plans[i], w.booked, w.deposits);
  }

  lemma WholeMoves(legs: seq<Leg>, entry: WagerEntry)
    ensures ReturnsWhole(legs, entry) ==> MovedAs(legs, Return) == entry.amount && MovedAs(legs, Burn) == 0.0
    ensures BurnsWhole(legs, entry) ==> MovedAs(legs, Burn) == entry.amount && MovedAs(legs, Return) == 0.0
  {
    if |legs| == 1 {
      assert legs[..0] == [];
    }
  }
}
