/** The game world: raids with escrowed wagers, from a verified deposit to one settlement plan. */
module GameWorlds {
  import opened Prelude
  import opened Settlement
  import opened Expeditions
  import opened BetLedger
  import opened RaidVaults
  import opened RaidCombat
  import Outbox

  /**
   * `plans` logs the plans handed to the outbox and `booked` the wagers reported as durable
   * liability; `deposits` are the deposits the gateway has verified.
   */
  datatype World = World(
    battle: Battle, vaults: Balances, ledger: Ledger, wagers: map<ExpeditionId, WagerEntry>,
    plans: seq<Plan>, booked: set<WagerId>, deposits: map<WagerId, WagerEntry>)

  // ----- Starting a raid -----

  /** The bookkeeping after the expedition exists: on any ledger error the deposit is refunded. */
  function Book(w: World, id: ExpeditionId, entry: WagerEntry, target: AsteroidId, source: AsteroidId, now: int): World {
    if entry.wagerId in w.ledger.pools then w.(plans := w.plans + [RefundPlan(entry)])
    else
      var l := CreatePool(w.ledger, entry.wagerId, target, source);
      w.(ledger := Place(l, entry.wagerId, entry.wallet, target, entry.amount, now),
         wagers := w.wagers[id := entry], booked := w.booked + {entry.wagerId})
  }

  /** The request: `allowed` stands for authentication, home station, cooldowns, immunity and the stake cap. */
  datatype Request = Request(id: ExpeditionId, wallet: Wallet, target: AsteroidId, source: AsteroidId,
                             power: real, bet: real, expiresAt: int, allowed: bool)

  predicate Accepted(w: World, r: Request) {
    CanCreate(w.battle.tracker, r.wallet, r.source, r.target, r.allowed)
  }

  function Launched(w: World, r: Request, bet: real): World {
    w.(battle := w.battle.(tracker := Create(w.battle.tracker, r.id, r.wallet, r.source, r.target, r.power, bet, r.expiresAt)))
  }

  /** A raid without an escrowed wager. */
  function Start(w: World, r: Request): World {
    if Accepted(w, r) then Launched(w, r, r.bet) else w
  }

  /** A raid with a verified deposit; the gateway refunds the deposit when the raid is refused. */
  function StartWithWager(w: World, r: Request, entry: WagerEntry, now: int): World {
    var paid := w.(deposits := w.deposits[entry.wagerId := entry]);
    if Accepted(w, r) then Book(Launched(paid, r, 0.0), r.id, entry, r.target, r.source, now)
    else paid.(plans := paid.plans + [RefundPlan(entry)])
  }

  // ----- Ending a raid -----

  /** The wager on expedition `id` leaves the ledger and `plan` goes to the outbox. */
  function Dispatched(w: World, id: ExpeditionId, side: Side, plan: Plan, now: int): World
    requires id in w.wagers && w.wagers[id].wagerId in w.ledger.pools
  {
    w.(ledger := Close(w.ledger, w.wagers[id].wagerId, side, now), wagers := w.wagers - {id}, plans := w.plans + [plan])
  }

  predicate HasOpenPool(w: World, id: ExpeditionId) {
    id in w.wagers && IsActive(w.ledger, w.wagers[id].wagerId)
  }

  /** An abandoned wager; without an open pool nothing happens. */
  function Forfeit(w: World, id: ExpeditionId, now: int): World {
    if HasOpenPool(w, id) then Dispatched(w, id, Defender, ForfeitPlan(w.wagers[id]), now) else w
  }

  function Abandon(w: World, wallet: Wallet, now: int): World {
    if CanLeave(w.battle.tracker, wallet) then
      Forfeit(w.(battle := w.battle.(tracker := Leave(w.battle.tracker, wallet))), w.battle.tracker.attackerOn[wallet], now)
    else w
  }

  function WinningSide(r: RaidResult): Side {
    if r.attackersWon then Attacker else Defender
  }

  ghost function PoolBets(l: Ledger, raid: RaidId): seq<Payout>
    requires BetLedger.Inv(l) && raid in l.pools
  {
    KnownBets(l, raid);
    BetsOf(l.bets, l.pools[raid].attackerBets)
  }

  ghost function ResolutionOf(w: World, r: RaidResult, stakes: seq<Payout>, split: LossSplit): Resolution
    requires BetLedger.Inv(w.ledger) && HasOpenPool(w, r.expeditionId)
  {
    Resolve(PoolBets(w.ledger, w.wagers[r.expeditionId].wagerId), WinningSide(r), stakes, split)
  }

  /** What settling a result does to the vaults: the theft, and the wager share recirculated elsewhere. */
  ghost function MoveOf(w: World, r: RaidResult, stakes: seq<Payout>, split: LossSplit): VaultMove
    requires BetLedger.Inv(w.ledger)
  {
    VaultMove(if r.attackersWon && r.stolenYield > 0.0 then r.stolenYield else 0.0,
              if HasOpenPool(w, r.expeditionId) && !r.attackersWon
              then Max(ResolutionOf(w, r, stakes, split).recirculated, 0.0) else 0.0)
  }

  /** One resolved raid: the vault is debited and the wager, if any, settled. */
  ghost function Settled(w: World, target: AsteroidId, others: seq<AsteroidId>, r: RaidResult, stakes: seq<Payout>,
                         split: LossSplit, now: int): (w': World)
    requires BetLedger.Inv(w.ledger)
    ensures BetLedger.Inv(w'.ledger)
  {
    var moved := w.(vaults := Moved(w.vaults, target, others, MoveOf(w, r, stakes, split)));
    if HasOpenPool(w, r.expeditionId) then
      CloseKeepsInv(w.ledger, w.wagers[r.expeditionId].wagerId, WinningSide(r), now);
      Dispatched(moved, r.expeditionId, WinningSide(r),
                 SettlementPlan(w.wagers[r.expeditionId], ResolutionOf(w, r, stakes, split)), now)
    else moved
  }

  /** The state of the game a sweep reads: defense power, stake-bet and wager defenders, the loss split, the clock. */
  datatype Conditions = Conditions(defense: ExpeditionId -> real, stakes: ExpeditionId -> seq<Payout>,
                                   spoils: ExpeditionId -> seq<Payout>, split: LossSplit, now: int)

  ghost function SettleAll(w: World, target: AsteroidId, others: seq<AsteroidId>, results: seq<RaidResult>, c: Conditions): (w': World)
    requires BetLedger.Inv(w.ledger)
    ensures BetLedger.Inv(w'.ledger)
  {
    if results == [] then w
    else
      var r := results[|results| - 1];
      Settled(SettleAll(w, target, others, results[..|results| - 1], c), target, others, r, c.spoils(r.expeditionId),
              c.split, c.now)
  }

  /** The stealable pot is seeded from the target's vault. */
  function Seeded(w: World, target: AsteroidId): Battle {
    w.battle.(pots := w.battle.pots[target := Held(w.vaults, target)])
  }

  /** All raids due at one target; `ids` lists the active expeditions against it. */
  ghost function Swept(w: World, target: AsteroidId, others: seq<AsteroidId>, ids: seq<ExpeditionId>, c: Conditions): World
    requires BetLedger.Inv(w.ledger)
  {
    if ids == [] then w
    else
      SettleAll(w.(battle := AfterRaids(Seeded(w, target), ids, c.defense, c.stakes)), target, others,
                Results(Seeded(w, target), ids, c.defense, c.stakes), c)
  }

  // ----- The invariant -----

  ghost predicate Live(wagers: map<ExpeditionId, WagerEntry>, d: WagerId) {
    exists x :: x in wagers && wagers[x].wagerId == d
  }

  /** How many plans name the deposit. */
  function PlansFor(plans: seq<Plan>, d: WagerId): nat {
    if plans == [] then 0
    else PlansFor(plans[..|plans| - 1], d) + (if plans[|plans| - 1].wagerId == d then 1 else 0)
  }

  /** A live wager names an active expedition of its wallet, or one whose end is being processed. */
  ghost predicate OnRaid(t: Tracker, x: ExpeditionId, e: WagerEntry, pending: set<ExpeditionId>) {
    x in pending || (Raiding(t, x) && e.wallet in t.expeditions[x].attackers)
  }

  /** Every expedition is one wallet's: the world never lets a second one join. */
  ghost predicate Solo(t: Tracker) {
    forall x :: Raiding(t, x) ==> |t.expeditions[x].attackers| == 1
  }

  ghost predicate Tracked(t: Tracker, wagers: map<ExpeditionId, WagerEntry>, pending: set<ExpeditionId>) {
    Agree(t) && Solo(t) && forall x :: x in wagers ==> OnRaid(t, x, wagers[x], pending)
  }

  /** The entry's deposit is booked and its pool is open with exactly the entry's bet. */
  ghost predicate Backed(l: Ledger, booked: set<WagerId>, deposits: map<WagerId, WagerEntry>, e: WagerEntry) {
    && e.amount > 0.0 && e.wagerId in deposits && deposits[e.wagerId] == e && e.wagerId in booked
    && IsActive(l, e.wagerId)
    && var ids := l.pools[e.wagerId].attackerBets;
       |ids| == 1 && ids[0].wallet == e.wallet && ids[0] in l.bets && l.bets[ids[0]].amount == e.amount
  }

  ghost predicate OnePerDeposit(wagers: map<ExpeditionId, WagerEntry>) {
    forall x, y :: x in wagers && y in wagers && wagers[x].wagerId == wagers[y].wagerId ==> x == y
  }

  ghost predicate Ledgered(w: World) {
    && BetLedger.Inv(w.ledger)
    && (forall r :: r in w.ledger.pools ==> r in w.deposits)
    && (forall x :: x in w.wagers ==> Backed(w.ledger, w.booked, w.deposits, w.wagers[x]))
    && OnePerDeposit(w.wagers)
  }

  /** Each verified deposit is either live or has exactly one plan; nothing else has a plan. */
  ghost predicate Accounted(wagers: map<ExpeditionId, WagerEntry>, plans: seq<Plan>, deposits: map<WagerId, WagerEntry>) {
    forall d :: PlansFor(plans, d) + (if Live(wagers, d) then 1 else 0) == (if d in deposits then 1 else 0)
  }

  /** The plan pays out exactly its deposit; an unbooked deposit is returned. */
  ghost predicate Fair(p: Plan, booked: set<WagerId>, deposits: map<WagerId, WagerEntry>) {
    && p.wagerId in deposits && deposits[p.wagerId].amount > 0.0 && deposits[p.wagerId].wagerId == p.wagerId
    && ExactLegs(BuildLegs(p), deposits[p.wagerId].amount)
    && (p.wagerId !in booked ==> p == RefundPlan(deposits[p.wagerId]))
  }

  ghost predicate AllFair(plans: seq<Plan>, booked: set<WagerId>, deposits: map<WagerId, WagerEntry>) {
    forall i :: 0 <= i < |plans| ==> Fair(plans[i], booked, deposits)
  }

  function WagersOf(wagers: map<ExpeditionId, WagerEntry>, u: Wallet): map<ExpeditionId, real> {
    map x | x in wagers && wagers[x].wallet == u :: wagers[x].amount
  }

  /** What the ledger holds locked for a wallet is what the wallet has riding on raids. */
  ghost predicate LocksAgree(l: Ledger, wagers: map<ExpeditionId, WagerEntry>) {
    forall u :: LockedAmount(l, u) == Total(WagersOf(wagers, u))
  }

  ghost predicate Sums(w: World) {
    Accounted(w.wagers, w.plans, w.deposits) && AllFair(w.plans, w.booked, w.deposits) && LocksAgree(w.ledger, w.wagers)
  }

  /** `pending` are expeditions that have just ended and whose wagers are about to be settled. */
  ghost predicate WorldInv(w: World, pending: set<ExpeditionId>) {
    Tracked(w.battle.tracker, w.wagers, pending) && Ledgered(w) && Sums(w) && Solvent(w.vaults)
  }

  /** Only `wallet` has `change` more locked than before. */
  ghost predicate LocksChange(l: Ledger, l': Ledger, wallet: Wallet, change: real) {
    forall u :: LockedAmount(l', u) == LockedAmount(l, u) + (if u == wallet then change else 0.0)
  }

  // ----- Wagers come and go -----

  lemma PlansForMore(plans: seq<Plan>, p: Plan, d: WagerId)
    ensures PlansFor(plans + [p], d) == PlansFor(plans, d) + (if p.wagerId == d then 1 else 0)
  {
    assert (plans + [p])[..|plans|] == plans;
  }

  lemma RefundIsFair(entry: WagerEntry, plans: seq<Plan>, booked: set<WagerId>, deposits: map<WagerId, WagerEntry>)
    requires AllFair(plans, booked, deposits) && entry.amount > 0.0 && entry.wagerId !in deposits
    ensures AllFair(plans + [RefundPlan(entry)], booked, deposits[entry.wagerId := entry])
  {
    hide ExactLegs, BuildLegs;
    ForfeitAndRefundAreExact(entry);
    var deposits' := deposits[entry.wagerId := entry];
    forall i | 0 <= i < |plans| ensures Fair(plans[i], booked, deposits') {
      assert Fair(plans[i], booked, deposits);
    }
  }

  lemma RefusedAccounts(wagers: map<ExpeditionId, WagerEntry>, plans: seq<Plan>, deposits: map<WagerId, WagerEntry>,
                        entry: WagerEntry)
    requires Accounted(wagers, plans, deposits) && entry.wagerId !in deposits
    ensures Accounted(wagers, plans + [RefundPlan(entry)], deposits[entry.wagerId := entry])
  {
    hide Live;
    forall d ensures PlansFor(plans + [RefundPlan(entry)], d) + (if Live(wagers, d) then 1 else 0)
                     == (if d in deposits[entry.wagerId := entry] then 1 else 0) {
      PlansForMore(plans, RefundPlan(entry), d);
    }
  }

  /** A refused raid: the deposit gets its one plan at once. */
  lemma RefusedWagerKeepsInv(w: World, entry: WagerEntry)
    requires WorldInv(w, {}) && entry.amount > 0.0 && entry.wagerId !in w.deposits
    ensures WorldInv(w.(deposits := w.deposits[entry.wagerId := entry], plans := w.plans + [RefundPlan(entry)]), {})
  {
    hide BetLedger.Inv, Tracked, LocksAgree, AllFair, Accounted;
    RefundIsFair(entry, w.plans, w.booked, w.deposits);
    RefusedAccounts(w.wagers, w.plans, w.deposits, entry);
  }

  lemma BookedLocks(l: Ledger, entry: WagerEntry, target: AsteroidId, source: AsteroidId, now: int)
    requires BetLedger.Inv(l) && entry.wagerId !in l.pools
    ensures var l' := Place(CreatePool(l, entry.wagerId, target, source), entry.wagerId, entry.wallet, target, entry.amount, now);
            BetLedger.Inv(l') && LocksChange(l, l', entry.wallet, entry.amount)
            && BetId(entry.wagerId, entry.wallet, now) !in l.bets
  {
    hide BetLedger.Inv, HasBet, LockedAmount, Place;
    var l1 := CreatePool(l, entry.wagerId, target, source);
    CreateKeepsInv(l, entry.wagerId, target, source);
    EmptyPoolIsOpen(l1, entry.wagerId, entry.wallet);
    PlaceKeepsInv(l1, entry.wagerId, entry.wallet, target, entry.amount, now);
    NewBetIsNew(l1, entry.wagerId, entry.wallet, now);
    forall u ensures LockedAmount(Place(l1, entry.wagerId, entry.wallet, target, entry.amount, now), u)
                     == LockedAmount(l, u) + (if u == entry.wallet then entry.amount else 0.0) {
      PlaceLocks(l1, entry.wagerId, entry.wallet, target, entry.amount, now, u);
      SameLocks(l, l1, u);
    }
  }

  lemma NewDeposit(w: World, id: ExpeditionId, entry: WagerEntry)
    requires Ledgered(w) && entry.wagerId !in w.deposits
    ensures OnePerDeposit(w.wagers[id := entry])
  {
    hide BetLedger.Inv;
    forall x | x in w.wagers ensures w.wagers[x].wagerId != entry.wagerId {
      assert Backed(w.ledger, w.booked, w.deposits, w.wagers[x]);
    }
  }

  lemma BookedLedger(w: World, id: ExpeditionId, entry: WagerEntry, target: AsteroidId, source: AsteroidId, now: int)
    requires Ledgered(w) && entry.wagerId !in w.deposits && entry.amount > 0.0 && id !in w.wagers
    ensures var w' := Book(w.(deposits := w.deposits[entry.wagerId := entry]), id, entry, target, source, now);
            && Ledgered(w') && entry.wagerId !in w.ledger.pools
            && LocksChange(w.ledger, w'.ledger, entry.wallet, entry.amount)
  {
    hide BetLedger.Inv, LocksChange, OnePerDeposit;
    NewDeposit(w, id, entry);
    var w' := Book(w.(deposits := w.deposits[entry.wagerId := entry]), id, entry, target, source, now);
    BookedLocks(w.ledger, entry, target, source, now);
    forall x | x in w'.wagers ensures Backed(w'.ledger, w'.booked, w'.deposits, w'.wagers[x]) {
      assert x != id ==> Backed(w.ledger, w.booked, w.deposits, w.wagers[x]);
    }
  }

  lemma EmptyPoolIsOpen(l: Ledger, raid: RaidId, wallet: Wallet)
    requires IsActive(l, raid) && l.pools[raid].attackerBets == []
    ensures CanPlace(l, raid, wallet)
  {
  }

  lemma SameLocks(l: Ledger, l': Ledger, u: Wallet)
    requires l'.bets == l.bets
    ensures LockedAmount(l', u) == LockedAmount(l, u)
  {
    assert LockedBets(l', u) == LockedBets(l, u);
  }

  lemma WagerAdded(wagers: map<ExpeditionId, WagerEntry>, id: ExpeditionId, entry: WagerEntry, u: Wallet)
    requires id !in wagers
    ensures Total(WagersOf(wagers[id := entry], u))
            == Total(WagersOf(wagers, u)) + (if u == entry.wallet then entry.amount else 0.0)
  {
    if u == entry.wallet {
      assert WagersOf(wagers[id := entry], u) == WagersOf(wagers, u)[id := entry.amount];
      TotalPut(WagersOf(wagers, u), id, entry.amount);
    } else {
      assert WagersOf(wagers[id := entry], u) == WagersOf(wagers, u);
    }
  }

  lemma WagerRemoved(wagers: map<ExpeditionId, WagerEntry>, id: ExpeditionId, u: Wallet)
    requires id in wagers
    ensures Total(WagersOf(wagers - {id}, u))
            == Total(WagersOf(wagers, u)) - (if u == wagers[id].wallet then wagers[id].amount else 0.0)
  {
    WagerAdded(wagers - {id}, id, wagers[id], u);
    assert (wagers - {id})[id := wagers[id]] == wagers;
  }

  lemma LiveAfterAdding(wagers: map<ExpeditionId, WagerEntry>, id: ExpeditionId, entry: WagerEntry, d: WagerId)
    requires id !in wagers
    ensures Live(wagers[id := entry], d) <==> Live(wagers, d) || d == entry.wagerId
  {
    var more := wagers[id := entry];
    assert id in more && more[id].wagerId == entry.wagerId;
    if x :| x in wagers && wagers[x].wagerId == d {
      assert x in more && more[x].wagerId == d;
    }
  }

  lemma LiveAfterRemoval(wagers: map<ExpeditionId, WagerEntry>, id: ExpeditionId, d: WagerId)
    requires id in wagers
    requires OnePerDeposit(wagers)
    ensures Live(wagers - {id}, d) <==> Live(wagers, d) && d != wagers[id].wagerId
    ensures Live(wagers, wagers[id].wagerId)
  {
    LiveAfterAdding(wagers - {id}, id, wagers[id], d);
    assert (wagers - {id})[id := wagers[id]] == wagers;
  }

  lemma BookedSums(w: World, w': World, id: ExpeditionId, entry: WagerEntry)
    requires Sums(w) && id !in w.wagers && entry.wagerId !in w.deposits && w'.plans == w.plans
    requires w'.wagers == w.wagers[id := entry] && w'.deposits == w.deposits[entry.wagerId := entry]
    requires w'.booked == w.booked + {entry.wagerId}
    requires LocksChange(w.ledger, w'.ledger, entry.wallet, entry.amount)
    ensures Sums(w')
  {
    hide ExactLegs, Live, LockedAmount, WagersOf;
    forall d ensures PlansFor(w'.plans, d) + (if Live(w'.wagers, d) then 1 else 0) == (if d in w'.deposits then 1 else 0) {
      LiveAfterAdding(w.wagers, id, entry, d);
    }
    forall i | 0 <= i < |w'.plans| ensures Fair(w'.plans[i], w'.booked, w'.deposits) {
      assert Fair(w.plans[i], w.booked, w.deposits);
    }
    forall u ensures LockedAmount(w'.ledger, u) == Total(WagersOf(w'.wagers, u)) {
      WagerAdded(w.wagers, id, entry, u);
    }
  }

  /** An expedition's wager is dispatched with a plan for exactly its amount. */
  lemma DispatchedLedger(w: World, id: ExpeditionId, side: Side, plan: Plan, now: int)
    requires Ledgered(w) && id in w.wagers
    ensures Backed(w.ledger, w.booked, w.deposits, w.wagers[id])
    ensures Ledgered(Dispatched(w, id, side, plan, now))
    ensures LocksChange(w.ledger, Dispatched(w, id, side, plan, now).ledger, w.wagers[id].wallet, -w.wagers[id].amount)
  {
    hide BetLedger.Inv, LockedAmount;
    var entry, w' := w.wagers[id], Dispatched(w, id, side, plan, now);
    assert Backed(w.ledger, w.booked, w.deposits, entry);
    CloseKeepsInv(w.ledger, entry.wagerId, side, now);
    forall x | x in w'.wagers ensures Backed(w'.ledger, w'.booked, w'.deposits, w'.wagers[x]) {
      assert Backed(w.ledger, w.booked, w.deposits, w.wagers[x]);
    }
    forall u ensures LockedAmount(w'.ledger, u)
                     == LockedAmount(w.ledger, u) + (if u == entry.wallet then -entry.amount else 0.0) {
      CloseUnlocks(w.ledger, entry.wagerId, side, now, u);
    }
  }

  lemma DispatchedAccounts(wagers: map<ExpeditionId, WagerEntry>, plans: seq<Plan>, deposits: map<WagerId, WagerEntry>,
                           id: ExpeditionId, plan: Plan)
    requires Accounted(wagers, plans, deposits) && id in wagers && plan.wagerId == wagers[id].wagerId
    requires OnePerDeposit(wagers)
    ensures Accounted(wagers - {id}, plans + [plan], deposits)
  {
    hide Live;
    forall d ensures PlansFor(plans + [plan], d) + (if Live(wagers - {id}, d) then 1 else 0)
                     == (if d in deposits then 1 else 0) {
      LiveAfterRemoval(wagers, id, d);
      PlansForMore(plans, plan, d);
    }
  }

  lemma DispatchedSums(w: World, id: ExpeditionId, side: Side, plan: Plan, now: int)
    requires Sums(w) && Ledgered(w) && id in w.wagers && w.wagers[id].wagerId in w.ledger.pools
    requires plan.wagerId == w.wagers[id].wagerId && ExactLegs(BuildLegs(plan), w.wagers[id].amount)
    ensures Sums(Dispatched(w, id, side, plan, now))
  {
    hide BetLedger.Inv, ExactLegs, Live, LockedAmount, WagersOf, BuildLegs, PlansFor, Accounted;
    var w' := Dispatched(w, id, side, plan, now);
    DispatchedLedger(w, id, side, plan, now);
    DispatchedAccounts(w.wagers, w.plans, w.deposits, id, plan);
    assert Fair(plan, w.booked, w.deposits);
    forall u ensures LockedAmount(w'.ledger, u) == Total(WagersOf(w'.wagers, u)) {
      WagerRemoved(w.wagers, id, u);
    }
  }

  lemma DispatchKeepsInv(w: World, id: ExpeditionId, side: Side, plan: Plan, now: int, pending: set<ExpeditionId>)
    requires WorldInv(w, pending) && id in w.wagers && w.wagers[id].wagerId in w.ledger.pools
    requires plan.wagerId == w.wagers[id].wagerId && ExactLegs(BuildLegs(plan), w.wagers[id].amount)
    ensures WorldInv(Dispatched(w, id, side, plan, now), pending - {id})
  {
    hide Ledgered, Sums, ExactLegs, BuildLegs, Agree, Solo;
    DispatchedLedger(w, id, side, plan, now);
    DispatchedSums(w, id, side, plan, now);
  }

  // ----- The world's operations keep the invariant -----

  lemma LaunchTracks(t: Tracker, wagers: map<ExpeditionId, WagerEntry>, r: Request, bet: real)
    requires Tracked(t, wagers, {}) && CanCreate(t, r.wallet, r.source, r.target, r.allowed) && r.id !in t.expeditions
    ensures var t' := Create(t, r.id, r.wallet, r.source, r.target, r.power, bet, r.expiresAt);
            && Tracked(t', wagers, {})
            && forall e: WagerEntry :: e.wallet == r.wallet ==> OnRaid(t', r.id, e, {})
    ensures r.id !in wagers
  {
    hide Agree;
    CreateAgrees(t, r.id, r.wallet, r.source, r.target, r.power, bet, r.expiresAt);
    assert r.id in wagers ==> OnRaid(t, r.id, wagers[r.id], {});
  }

  lemma StartKeepsInv(w: World, r: Request)
    requires WorldInv(w, {}) && r.id !in w.battle.tracker.expeditions
    ensures WorldInv(Start(w, r), {})
  {
    hide BetLedger.Inv, Backed, OnePerDeposit, Accounted, AllFair, LocksAgree, Tracked, Create;
    if Accepted(w, r) {
      LaunchTracks(w.battle.tracker, w.wagers, r, r.bet);
    }
  }

  lemma StartWithWagerKeepsInv(w: World, r: Request, entry: WagerEntry, now: int)
    requires WorldInv(w, {}) && r.id !in w.battle.tracker.expeditions
    requires entry.wagerId !in w.deposits && entry.amount > 0.0 && entry.wallet == r.wallet
    ensures WorldInv(StartWithWager(w, r, entry, now), {})
  {
    hide Tracked, Create, Ledgered, Sums, OnRaid;
    if Accepted(w, r) {
      LaunchTracks(w.battle.tracker, w.wagers, r, 0.0);
      LedgerIgnoresBattle(w, Launched(w, r, 0.0));
      var w1 := Launched(w, r, 0.0);
      BookedLedger(w1, r.id, entry, r.target, r.source, now);
      var w' := StartWithWager(w, r, entry, now);
      BookedSums(w, w', r.id, entry);
      WagerTracked(w'.battle.tracker, w.wagers, r.id, entry);
    } else {
      RefusedWagerKeepsInv(w, entry);
    }
  }

  lemma LedgerIgnoresBattle(w: World, w': World)
    requires w' == w.(battle := w'.battle, vaults := w'.vaults)
    ensures Ledgered(w) ==> Ledgered(w')
    ensures Sums(w) ==> Sums(w')
  {
    hide BetLedger.Inv, Backed, OnePerDeposit, Accounted, AllFair, LocksAgree;
  }

  lemma WagerTracked(t: Tracker, wagers: map<ExpeditionId, WagerEntry>, id: ExpeditionId, entry: WagerEntry)
    requires Tracked(t, wagers, {}) && OnRaid(t, id, entry, {})
    ensures Tracked(t, wagers[id := entry], {})
  {
    hide Agree, Solo, OnRaid;
  }

  lemma ForfeitKeepsInv(w: World, id: ExpeditionId, now: int)
    requires WorldInv(w, {id})
    ensures WorldInv(Forfeit(w, id, now), {})
    ensures id in w.wagers ==> Forfeit(w, id, now) == Dispatched(w, id, Defender, ForfeitPlan(w.wagers[id]), now)
  {
    hide Tracked, Ledgered, Sums;
    if id in w.wagers {
      LiveHasPool(w, id);
      ForfeitAndRefundAreExact(w.wagers[id]);
      DispatchKeepsInv(w, id, Defender, ForfeitPlan(w.wagers[id]), now, {id});
      assert {id} - {id} == {};
    } else {
      Unpend(w, id);
      assert {id} - {id} == {};
    }
  }

  /** A forfeited wager's bets are lost in the ledger. */
  lemma ForfeitLoses(w: World, id: ExpeditionId, now: int)
    requires BetLedger.Inv(w.ledger) && HasOpenPool(w, id)
    ensures var l' := Forfeit(w, id, now).ledger; var raid := w.wagers[id].wagerId;
            && raid in l'.pools && l'.pools[raid].resolvedAt == Some(now)
            && forall b :: b in l'.bets && b.raid == raid ==> l'.bets[b].status.Lost?
  {
    hide BetLedger.Inv;
    CloseDecides(w.ledger, w.wagers[id].wagerId, Defender, now);
  }

  lemma LiveHasPool(w: World, id: ExpeditionId)
    requires Ledgered(w) && id in w.wagers
    ensures Backed(w.ledger, w.booked, w.deposits, w.wagers[id]) && HasOpenPool(w, id) && w.wagers[id].amount > 0.0
  {
    hide BetLedger.Inv;
    assert Backed(w.ledger, w.booked, w.deposits, w.wagers[id]);
  }

  /** An ended expedition without a wager leaves nothing to settle. */
  lemma Unpend(w: World, id: ExpeditionId)
    requires id !in w.wagers
    ensures forall pending :: WorldInv(w, pending) ==> WorldInv(w, pending - {id})
  {
    hide Agree, Solo, Ledgered, Sums, Raiding;
    forall pending | WorldInv(w, pending) ensures WorldInv(w, pending - {id}) {
      forall x | x in w.wagers ensures OnRaid(w.battle.tracker, x, w.wagers[x], pending - {id}) {
        assert OnRaid(w.battle.tracker, x, w.wagers[x], pending);
      }
    }
  }

  lemma LeaveTracks(t: Tracker, wagers: map<ExpeditionId, WagerEntry>, wallet: Wallet)
    requires Tracked(t, wagers, {}) && CanLeave(t, wallet)
    ensures Tracked(Leave(t, wallet), wagers, {t.attackerOn[wallet]})
    ensures var id := t.attackerOn[wallet]; id in wagers ==> wagers[id].wallet == wallet
  {
    hide Agree, Leave;
    LeaveAgrees(t, wallet);
    LeavingAlone(t, wallet);
    var id, t' := t.attackerOn[wallet], Leave(t, wallet);
    assert id in wagers ==> OnRaid(t, id, wagers[id], {});
    forall x | x in wagers ensures OnRaid(t', x, wagers[x], {id}) {
      assert OnRaid(t, x, wagers[x], {});
    }
  }

  /** The world's expeditions end with their only attacker. */
  lemma LeavingAlone(t: Tracker, wallet: Wallet)
    requires Agree(t) && Solo(t) && CanLeave(t, wallet)
    ensures t.expeditions[t.attackerOn[wallet]].attackers == [wallet]
    ensures Leave(t, wallet).expeditions == t.expeditions - {t.attackerOn[wallet]}
  {
    hide Listed, WellManned, RemoveIncoming;
    assert OnActive(t, wallet);
    SplicedAlone(t.expeditions[t.attackerOn[wallet]].attackers, wallet);
  }

  lemma SplicedAlone(s: seq<Wallet>, w: Wallet)
    requires |s| == 1 && w in s
    ensures Splice(s, w) == [] && s == [w]
  {
  }

  lemma AbandonKeepsInv(w: World, wallet: Wallet, now: int)
    requires WorldInv(w, {})
    ensures WorldInv(Abandon(w, wallet, now), {})
  {
    hide Tracked, Ledgered, Sums, Leave;
    if CanLeave(w.battle.tracker, wallet) {
      var id := w.battle.tracker.attackerOn[wallet];
      var left := w.(battle := w.battle.(tracker := Leave(w.battle.tracker, wallet)));
      LeaveTracks(w.battle.tracker, w.wagers, wallet);
      LedgerIgnoresBattle(w, left);
      ForfeitKeepsInv(left, id, now);
    }
  }

  lemma SettledKeepsInv(w: World, target: AsteroidId, others: seq<AsteroidId>, r: RaidResult, stakes: seq<Payout>,
                        split: LossSplit, now: int, pending: set<ExpeditionId>)
    requires WorldInv(w, pending) && NonNegative(stakes) && ValidSplit(split)
    ensures BetLedger.Inv(w.ledger)
    ensures WorldInv(Settled(w, target, others, r, stakes, split, now), pending - {r.expeditionId})
    ensures r.expeditionId in w.wagers ==> HasOpenPool(w, r.expeditionId)
  {
    hide Tracked, Sums, Backed, BetLedger.Inv, ExactLegs, BuildLegs, Resolve, Moved;
    var id := r.expeditionId;
    var moved := w.(vaults := Moved(w.vaults, target, others, MoveOf(w, r, stakes, split)));
    LedgerIgnoresBattle(w, moved);
    MovedStaysSolvent(w.vaults, target, others, MoveOf(w, r, stakes, split));
    if id in w.wagers {
      LiveHasPool(w, id);
      SoleBet(w, id);
      var plan := SettlementPlan(w.wagers[id], ResolutionOf(w, r, stakes, split));
      WagerSplitsExactly(w.wagers[id], WinningSide(r), stakes, split);
      DispatchKeepsInv(moved, id, WinningSide(r), plan, now, pending);
    } else {
      Unpend(moved, id);
    }
  }

  /** The ledger resolves exactly the entry's bet. */
  lemma SoleBet(w: World, id: ExpeditionId)
    requires BetLedger.Inv(w.ledger) && id in w.wagers && Backed(w.ledger, w.booked, w.deposits, w.wagers[id])
    ensures PoolBets(w.ledger, w.wagers[id].wagerId) == [Payout(w.wagers[id].wallet, w.wagers[id].amount)]
  {
    hide BetLedger.Inv;
  }

  // ----- Sweeps -----

  function Ended(results: seq<RaidResult>): set<ExpeditionId> {
    set i | 0 <= i < |results| :: results[i].expeditionId
  }

  predicate FairConditions(c: Conditions, results: seq<RaidResult>) {
    ValidSplit(c.split) && forall i :: 0 <= i < |results| ==> NonNegative(c.spoils(results[i].expeditionId))
  }

  lemma EndedMore(results: seq<RaidResult>, pending: set<ExpeditionId>)
    ensures if results == [] then pending - Ended(results) == pending
            else pending - Ended(results[..|results| - 1]) - {results[|results| - 1].expeditionId} == pending - Ended(results)
  {
  }

  lemma FairPrefix(c: Conditions, results: seq<RaidResult>)
    requires FairConditions(c, results) && results != []
    ensures FairConditions(c, results[..|results| - 1])
    ensures ValidSplit(c.split) && NonNegative(c.spoils(results[|results| - 1].expeditionId))
  {
  }

  lemma {:induction false} SettleAllKeepsInv(w: World, target: AsteroidId, others: seq<AsteroidId>,
                                             results: seq<RaidResult>, c: Conditions, pending: set<ExpeditionId>)
    requires WorldInv(w, pending) && FairConditions(c, results)
    ensures BetLedger.Inv(w.ledger)
    ensures WorldInv(SettleAll(w, target, others, results, c), pending - Ended(results))
  {
    assert BetLedger.Inv(w.ledger);
    hide WorldInv, BetLedger.Inv, Settled, NonNegative, FairConditions, Ended;
    EndedMore(results, pending);
    if results != [] {
      var n := |results| - 1;
      var r := results[n];
      FairPrefix(c, results);
      SettleAllKeepsInv(w, target, others, results[..n], c, pending);
      SettledKeepsInv(SettleAll(w, target, others, results[..n], c), target, others, r, c.spoils(r.expeditionId), c.split,
                      c.now, pending - Ended(results[..n]));
    }
  }

  /** `ids` lists exactly the active expeditions against the target. */
  ghost predicate AllDue(t: Tracker, target: AsteroidId, ids: seq<ExpeditionId>) {
    Due(t, target, ids) && forall id :: Targets(t, id, target) ==> id in ids
  }

  ghost predicate Sensible(c: Conditions) {
    ValidSplit(c.split) && Sound(c.defense) && forall id :: NonNegative(c.spoils(id))
  }

  lemma ResolvedTracks(t: Tracker, t': Tracker, wagers: map<ExpeditionId, WagerEntry>, ids: seq<ExpeditionId>)
    requires Tracked(t, wagers, {}) && OnlyResolved(t, t', ids) && Agree(t')
    ensures Tracked(t', wagers, set id | id in ids)
  {
    hide Agree;
    forall x | x in wagers ensures OnRaid(t', x, wagers[x], set id | id in ids) {
      assert OnRaid(t, x, wagers[x], {});
    }
  }

  lemma SweptKeepsInv(w: World, target: AsteroidId, others: seq<AsteroidId>, ids: seq<ExpeditionId>, c: Conditions)
    requires WorldInv(w, {}) && AllDue(w.battle.tracker, target, ids) && Sensible(c)
    ensures BetLedger.Inv(w.ledger)
    ensures WorldInv(Swept(w, target, others, ids, c), {})
  {
    assert BetLedger.Inv(w.ledger);
    hide BetLedger.Inv, Tracked, Ledgered, Sums, AfterRaids, Results, OnlyResolved;
    if ids != [] {
      var b := Seeded(w, target);
      var results := Results(b, ids, c.defense, c.stakes);
      var fought := w.(battle := AfterRaids(b, ids, c.defense, c.stakes));
      TrackedAgrees(w.battle.tracker, w.wagers);
      RaidsResolve(b, target, ids, c.defense, c.stakes);
      ResolvedTracks(w.battle.tracker, fought.battle.tracker, w.wagers, ids);
      LedgerIgnoresBattle(w, fought);
      assert Ended(results) == set id | id in ids;
      SettleAllKeepsInv(fought, target, others, results, c, set id | id in ids);
      assert (set id | id in ids) - Ended(results) == {};
    }
  }

  lemma TrackedAgrees(t: Tracker, wagers: map<ExpeditionId, WagerEntry>)
    requires Tracked(t, wagers, {})
    ensures Agree(t)
  {
  }

  // ----- Cleanups -----

  function ForgetRaids(w: World, now: int): World {
    w.(battle := w.battle.(tracker := DropStale(w.battle.tracker, now)))
  }

  function ForgetPools(w: World, now: int, maxAge: int): World {
    w.(ledger := Without(w.ledger, StalePools(w.ledger, now, maxAge)))
  }

  lemma ForgetRaidsKeepsInv(w: World, now: int)
    requires WorldInv(w, {})
    ensures WorldInv(ForgetRaids(w, now), {})
  {
    hide Agree, Ledgered, Sums;
    CleanupAgrees(w.battle.tracker, now);
    LedgerIgnoresBattle(w, ForgetRaids(w, now));
    var t' := DropStale(w.battle.tracker, now);
    forall x | x in w.wagers ensures OnRaid(t', x, w.wagers[x], {}) {
      assert OnRaid(w.battle.tracker, x, w.wagers[x], {});
    }
  }

  lemma ForgetPoolsKeepsInv(w: World, now: int, maxAge: int)
    requires WorldInv(w, {})
    ensures WorldInv(ForgetPools(w, now, maxAge), {})
  {
    hide Tracked, BetLedger.Inv, OnePerDeposit, Accounted, AllFair, LockedAmount;
    var w' := ForgetPools(w, now, maxAge);
    WithoutKeepsInv(w.ledger, StalePools(w.ledger, now, maxAge));
    forall x | x in w'.wagers ensures Backed(w'.ledger, w'.booked, w'.deposits, w'.wagers[x]) {
      assert Backed(w.ledger, w.booked, w.deposits, w.wagers[x]);
      OpenPoolKept(w.ledger, w.wagers[x].wagerId, now, maxAge);
    }
    forall u ensures LockedAmount(w'.ledger, u) == Total(WagersOf(w'.wagers, u)) {
      CleanupUnlocksNothing(w.ledger, now, maxAge, u);
    }
  }

  lemma OpenPoolKept(l: Ledger, raid: RaidId, now: int, maxAge: int)
    requires BetLedger.Inv(l) && IsActive(l, raid)
    ensures var l' := Without(l, StalePools(l, now, maxAge));
            && IsActive(l', raid) && l'.pools[raid] == l.pools[raid]
            && forall id :: id in l.bets && id.raid == raid ==> id in l'.bets && l'.bets[id] == l.bets[id]
    ensures forall id :: id in l.pools[raid].attackerBets ==> id.raid == raid
  {
    hide Indexed, BetsPooled, BetsOf, SumAmounts, OneBetPerWallet;
    assert PoolAgrees(l.bets, raid, l.pools[raid]);
  }

  // ----- Runs -----

  datatype Event =
    | StartRaid(request: Request)
    | StartWagered(request: Request, entry: WagerEntry, now: int)
    | LeaveRaid(wallet: Wallet, now: int)
    | ResolveDue(target: AsteroidId, others: seq<AsteroidId>, ids: seq<ExpeditionId>, conditions: Conditions)
    | FundVault(asteroid: AsteroidId, amount: real)  // the vault cut of a discovery
    | DropOldRaids(now: int)
    | DropOldPools(now: int, maxAge: int)

  /**
   * Uuids are fresh, deposits positive and the raider's own; a sweep visits every raid due at its target, and the
   * others are other asteroids.
   */
  ghost predicate Enabled(w: World, e: Event) {
    match e
    case StartRaid(r) => r.id !in w.battle.tracker.expeditions
    case StartWagered(r, entry, now) =>
      && r.id !in w.battle.tracker.expeditions
      && entry.wagerId !in w.deposits && entry.amount > 0.0 && entry.wallet == r.wallet
    case ResolveDue(target, others, ids, c) => AllDue(w.battle.tracker, target, ids) && Sensible(c) && target !in others
    case _ => true
  }

  ghost function Step(w: World, e: Event): World
    requires BetLedger.Inv(w.ledger)
  {
    match e
    case StartRaid(r) => Start(w, r)
    case StartWagered(r, entry, now) => StartWithWager(w, r, entry, now)
    case LeaveRaid(wallet, now) => Abandon(w, wallet, now)
    case ResolveDue(target, others, ids, c) => Swept(w, target, others, ids, c)
    case FundVault(a, amount) => w.(vaults := Credited(w.vaults, a, amount))
    case DropOldRaids(now) => ForgetRaids(w, now)
    case DropOldPools(now, maxAge) => ForgetPools(w, now, maxAge)
  }

  const EMPTY_LEDGER := Ledger(map[], map[], map[])
  const NEW_WORLD := World(Battle(Tracker(map[], map[], map[], map[]), map[], map[], 0.0), map[], EMPTY_LEDGER,
                           map[], [], {}, map[])

  /** `w` is reached from a fresh world by `events`, each enabled when it happens. */
  ghost predicate Reaches(events: seq<Event>, w: World) {
    if events == [] then w == NEW_WORLD
    else exists before :: Reaches(events[..|events| - 1], before) && BetLedger.Inv(before.ledger)
                          && Enabled(before, events[|events| - 1]) && w == Step(before, events[|events| - 1])
  }

  lemma StepKeepsInv(w: World, e: Event)
    requires WorldInv(w, {}) && Enabled(w, e)
    ensures BetLedger.Inv(w.ledger)
    ensures WorldInv(Step(w, e), {})
  {
    assert BetLedger.Inv(w.ledger);
    hide WorldInv, BetLedger.Inv, Start, StartWithWager, Abandon, Swept, ForgetRaids, ForgetPools, AllDue, Sensible;
    match e
    case StartRaid(r) => StartKeepsInv(w, r);
    case StartWagered(r, entry, now) => StartWithWagerKeepsInv(w, r, entry, now);
    case LeaveRaid(wallet, now) => AbandonKeepsInv(w, wallet, now);
    case ResolveDue(target, others, ids, c) => SweptKeepsInv(w, target, others, ids, c);
    case FundVault(a, amount) => FundVaultKeepsInv(w, a, amount);
    case DropOldRaids(now) => ForgetRaidsKeepsInv(w, now);
    case DropOldPools(now, maxAge) => ForgetPoolsKeepsInv(w, now, maxAge);
  }

  lemma FundVaultKeepsInv(w: World, a: AsteroidId, amount: real)
    requires WorldInv(w, {})
    ensures WorldInv(w.(vaults := Credited(w.vaults, a, amount)), {})
  {
    hide Tracked, Ledgered, Sums;
    LedgerIgnoresBattle(w, w.(vaults := Credited(w.vaults, a, amount)));
  }

  /** Neither a theft nor a recirculation overdraws a vault. */
  lemma MovedStaysSolvent(m: Balances, target: AsteroidId, others: seq<AsteroidId>, v: VaultMove)
    requires Solvent(m)
    ensures Solvent(Moved(m, target, others, v))
  {
    hide Debited, Spread, Shares, Credited;
    DebitTakes(m, target, v.stolen);
    var m1 := if v.stolen > 0.0 then Debited(m, target, v.stolen) else m;
    if v.recirculated > 0.0 {
      if others == [] {
        AddCredits(m1, target, v.recirculated);
      } else {
        SharesAreExact(v.recirculated, |others|);
        SpreadCredits(m1, others, Shares(v.recirculated, |others|), target);
      }
    }
  }

  lemma NewWorldInv()
    ensures WorldInv(NEW_WORLD, {})
  {
    hide Agree;
    EmptyTrackerAgrees();
    forall u ensures LockedAmount(EMPTY_LEDGER, u) == Total(WagersOf(map[], u)) {
      assert LockedBets(EMPTY_LEDGER, u) == map[] && WagersOf(map[], u) == map[];
    }
  }

  lemma {:induction false} ReachableInv(events: seq<Event>, w: World)
    requires Reaches(events, w)
    ensures WorldInv(w, {})
  {
    hide WorldInv, Enabled, Step;
    if events == [] {
      NewWorldInv();
    } else {
      var before :| Reaches(events[..|events| - 1], before) && BetLedger.Inv(before.ledger)
                    && Enabled(before, events[|events| - 1]) && w == Step(before, events[|events| - 1]);
      ReachableInv(events[..|events| - 1], before);
      StepKeepsInv(before, events[|events| - 1]);
    }
  }

  // ----- What every run guarantees -----

  /** In any run each verified deposit is riding on a raid or has exactly one plan, and nothing else has a plan. */
  lemma OnePlanPerDeposit(events: seq<Event>, w: World, d: WagerId)
    requires Reaches(events, w)
    ensures PlansFor(w.plans, d) <= 1
    ensures PlansFor(w.plans, d) == 1 <==> d in w.deposits && !Live(w.wagers, d)
    ensures Live(w.wagers, d) ==> d in w.deposits
  {
    ReachableInv(events, w);
    hide Reaches, Tracked, Ledgered, AllFair, LocksAgree, Live;
    assert PlansFor(w.plans, d) + (if Live(w.wagers, d) then 1 else 0) == (if d in w.deposits then 1 else 0);
  }

  /** Every plan ever dispatched has positive legs, burn last, that sum exactly to its deposit. */
  lemma PlansPayTheirDeposit(events: seq<Event>, w: World, i: nat)
    requires Reaches(events, w) && i < |w.plans|
    ensures w.plans[i].wagerId in w.deposits
    ensures ExactLegs(BuildLegs(w.plans[i]), w.deposits[w.plans[i].wagerId].amount)
    ensures w.plans[i].wagerId !in w.booked ==> w.plans[i] == RefundPlan(w.deposits[w.plans[i].wagerId])
  {
    ReachableInv(events, w);
    hide Reaches, Tracked, Ledgered, LocksAgree, Accounted, ExactLegs, BuildLegs;
    assert Fair(w.plans[i], w.booked, w.deposits);
  }

  /** Each tracked wager names an active raid of its wallet and an open pool: the error branches are dead code. */
  lemma WagersAreLive(events: seq<Event>, w: World, x: ExpeditionId)
    requires Reaches(events, w) && x in w.wagers
    ensures Raiding(w.battle.tracker, x) && w.battle.tracker.expeditions[x].attackers == [w.wagers[x].wallet]
    ensures HasOpenPool(w, x)
  {
    ReachableInv(events, w);
    hide Reaches, Agree, Sums, Ledgered, Raiding;
    LiveHasPool(w, x);
    OwnRaid(w.battle.tracker, w.wagers, x);
  }

  lemma OwnRaid(t: Tracker, wagers: map<ExpeditionId, WagerEntry>, x: ExpeditionId)
    requires Tracked(t, wagers, {}) && x in wagers
    ensures Raiding(t, x) && t.expeditions[x].attackers == [wagers[x].wallet]
  {
    hide Agree;
    assert OnRaid(t, x, wagers[x], {});
  }

  /** The ledger's locked amount is what the wallet has riding on raids. */
  lemma LockedIsRiding(events: seq<Event>, w: World, u: Wallet)
    requires Reaches(events, w)
    ensures LockedAmount(w.ledger, u) == Total(WagersOf(w.wagers, u))
  {
    ReachableInv(events, w);
    hide Reaches, Tracked, Ledgered, Accounted, AllFair;
  }

  /** In any run every tracker index agrees. */
  lemma IndexesAgree(events: seq<Event>, w: World)
    requires Reaches(events, w)
    ensures Agree(w.battle.tracker)
  {
    ReachableInv(events, w);
    hide Reaches, Agree, Ledgered, Sums;
  }

  /** In any run no vault is overdrawn. */
  lemma VaultsStaySolvent(events: seq<Event>, w: World)
    requires Reaches(events, w)
    ensures Solvent(w.vaults)
  {
    ReachableInv(events, w);
    hide Reaches, Tracked, Ledgered, Sums;
  }

  /** The world's plans are what the outbox asks for: its `Settle` is enabled whenever it should be. */
  lemma PlansFitTheOutbox(w: World, i: nat, o: Outbox.Wager)
    requires WorldInv(w, {}) && i < |w.plans| && w.plans[i].wagerId in w.deposits
    requires w.deposits[w.plans[i].wagerId] == WagerEntry(o.id, o.wallet, o.amount)
    requires if w.plans[i].wagerId in w.booked then o.at.Booking? || o.at.Idle? else o.at.Unbooked?
    requires w.plans[i].wagerId in w.booked ==> o.mem.Some? && o.mem.value.status.Active?
    ensures Outbox.Enabled(o, Outbox.Settle(w.plans[i]))
  {
    hide Tracked, Ledgered, LocksAgree, Accounted, ExactLegs, BuildLegs;
    assert Fair(w.plans[i], w.booked, w.deposits);
  }

  // ----- A sweep conserves the vaults -----

  ghost function MovesOf(w: World, target: AsteroidId, others: seq<AsteroidId>, results: seq<RaidResult>, c: Conditions): seq<VaultMove>
    requires BetLedger.Inv(w.ledger)
  {
    if results == [] then []
    else
      var n := |results| - 1;
      MovesOf(w, target, others, results[..n], c)
      + [MoveOf(SettleAll(w, target, others, results[..n], c), results[n], c.spoils(results[n].expeditionId), c.split)]
  }

  /** Only a win steals, and it never steals less than nothing. */
  ghost predicate WinnersSteal(results: seq<RaidResult>) {
    forall i :: 0 <= i < |results| ==>
      results[i].stolenYield >= 0.0 && (results[i].attackersWon || results[i].stolenYield == 0.0)
  }

  ghost predicate MovesFollow(moves: seq<VaultMove>, results: seq<RaidResult>) {
    Proper(moves) && RaidVaults.SumStolen(moves) == RaidCombat.SumStolen(results)
  }

  lemma MoveFollows(moves: seq<VaultMove>, results: seq<RaidResult>, w: World, stakes: seq<Payout>, split: LossSplit)
    requires BetLedger.Inv(w.ledger) && results != [] && WinnersSteal(results)
    requires MovesFollow(moves, results[..|results| - 1])
    ensures MovesFollow(moves + [MoveOf(w, results[|results| - 1], stakes, split)], results)
  {
    hide BetLedger.Inv, ResolutionOf;
    var more := moves + [MoveOf(w, results[|results| - 1], stakes, split)];
    assert more[..|moves|] == moves;
  }

  lemma SettleAllOneMore(w: World, target: AsteroidId, others: seq<AsteroidId>, results: seq<RaidResult>, c: Conditions)
    requires BetLedger.Inv(w.ledger) && results != []
    ensures var n := |results| - 1; var before := SettleAll(w, target, others, results[..n], c);
            var move := MoveOf(before, results[n], c.spoils(results[n].expeditionId), c.split);
            && SettleAll(w, target, others, results, c).vaults == Moved(before.vaults, target, others, move)
            && MovesOf(w, target, others, results, c) == MovesOf(w, target, others, results[..n], c) + [move]
  {
    hide BetLedger.Inv, Moved, MoveOf;
  }

  lemma MovedMore(m: Balances, target: AsteroidId, others: seq<AsteroidId>, moves: seq<VaultMove>, move: VaultMove)
    ensures AfterMoves(m, target, others, moves + [move]) == Moved(AfterMoves(m, target, others, moves), target, others, move)
  {
    hide Moved;
    assert (moves + [move])[..|moves|] == moves;
  }

  lemma {:induction false} SettleAllMoves(w: World, target: AsteroidId, others: seq<AsteroidId>,
                                          results: seq<RaidResult>, c: Conditions)
    requires BetLedger.Inv(w.ledger) && WinnersSteal(results)
    ensures SettleAll(w, target, others, results, c).vaults
            == AfterMoves(w.vaults, target, others, MovesOf(w, target, others, results, c))
    ensures MovesFollow(MovesOf(w, target, others, results, c), results)
  {
    if results == [] {
      hide BetLedger.Inv;
    } else {
      hide *;
      var n := |results| - 1;
      var before, moves := SettleAll(w, target, others, results[..n], c), MovesOf(w, target, others, results[..n], c);
      var r := results[n];
      WinnersPrefix(results);
      SettleAllMoves(w, target, others, results[..n], c);
      SettleAllOneMore(w, target, others, results, c);
      MoveFollows(moves, results, before, c.spoils(r.expeditionId), c.split);
      MovedMore(w.vaults, target, others, moves, MoveOf(before, r, c.spoils(r.expeditionId), c.split));
    }
  }

  lemma WinnersPrefix(results: seq<RaidResult>)
    requires WinnersSteal(results) && results != []
    ensures WinnersSteal(results[..|results| - 1])
  {
  }

  lemma {:induction false} ResultsSteal(b: Battle, ids: seq<ExpeditionId>, defense: ExpeditionId -> real,
                                        stakes: ExpeditionId -> seq<Payout>)
    requires forall i :: 0 <= i < |Results(b, ids, defense, stakes)| ==> Results(b, ids, defense, stakes)[i].stolenYield >= 0.0
    ensures WinnersSteal(Results(b, ids, defense, stakes))
  {
    hide AfterRaids, AfterRaid, Stolen, Raiding;
    if ids != [] {
      var before := Results(b, ids[..|ids| - 1], defense, stakes);
      assert forall i :: 0 <= i < |before| ==> before[i] == Results(b, ids, defense, stakes)[i];
      ResultsSteal(b, ids[..|ids| - 1], defense, stakes);
    }
  }

  /**
   * A sweep at one target: no debit is clamped, the vault falls by exactly the stolen yield and keeps
   * at least 0.7 to the power of the number of wins, and all vaults together change by exactly what
   * lost wagers recirculate less what was stolen. An only asteroid is given the recirculation itself.
   */
  lemma SweepConserves(w: World, target: AsteroidId, others: seq<AsteroidId>, ids: seq<ExpeditionId>, c: Conditions)
    requires WorldInv(w, {}) && AllDue(w.battle.tracker, target, ids) && Sensible(c) && ids != []
    requires target !in others
    ensures BetLedger.Inv(w.ledger)
    ensures var w' := Swept(w, target, others, ids, c);
            var fought := w.(battle := AfterRaids(Seeded(w, target), ids, c.defense, c.stakes));
            var results := Results(Seeded(w, target), ids, c.defense, c.stakes);
            var moves := MovesOf(fought, target, others, results, c);
            && Solvent(w'.vaults)
            && Held(w'.vaults, target) == Held(w.vaults, target) - RaidCombat.SumStolen(results)
                                          + (if others == [] then SumRecirculated(moves) else 0.0)
            && Held(w'.vaults, target) >= Kept(results) * Held(w.vaults, target)
            && Total(w'.vaults) == Total(w.vaults) - RaidCombat.SumStolen(results) + SumRecirculated(moves)
            && forall i :: 0 <= i < |moves| ==>
                 Taken(AfterMoves(w.vaults, target, others, moves[..i]), target, moves[i].stolen) == moves[i].stolen
  {
    hide *;
    InvParts(w);
    SeededPot(w, target);
    var b := Seeded(w, target);
    var results := Results(b, ids, c.defense, c.stakes);
    var fought := w.(battle := AfterRaids(b, ids, c.defense, c.stakes));
    var moves := MovesOf(fought, target, others, results, c);
    SweepParts(w, target, ids, c);
    SweepDrainsPot(b, target, ids, c.defense, c.stakes);
    DrainedParts(Held(b.pots, target), Held(fought.battle.pots, target), results);
    ResultsSteal(b, ids, c.defense, c.stakes);
    SettleAllMoves(fought, target, others, results, c);
    MovesFollowParts(moves, results);
    SweepConservesVaults(w.vaults, target, others, moves);
    RecirculatedNonNegative(moves);
    SweptIs(w, target, others, ids, c);
  }

  lemma MovesFollowParts(moves: seq<VaultMove>, results: seq<RaidResult>)
    requires MovesFollow(moves, results)
    ensures Proper(moves) && RaidVaults.SumStolen(moves) == RaidCombat.SumStolen(results)
  {
  }

  lemma InvParts(w: World)
    requires WorldInv(w, {})
    ensures BetLedger.Inv(w.ledger) && Agree(w.battle.tracker) && Solvent(w.vaults)
  {
  }

  lemma SeededPot(w: World, target: AsteroidId)
    ensures Seeded(w, target).tracker == w.battle.tracker
    ensures Held(Seeded(w, target).pots, target) == Held(w.vaults, target)
    ensures Solvent(w.vaults) ==> Held(w.vaults, target) >= 0.0
  {
  }

  lemma SweepParts(w: World, target: AsteroidId, ids: seq<ExpeditionId>, c: Conditions)
    requires AllDue(w.battle.tracker, target, ids) && Sensible(c)
    ensures Due(w.battle.tracker, target, ids) && Sound(c.defense)
  {
  }

  lemma DrainedParts(seeded: real, pot: real, results: seq<RaidResult>)
    requires Drained(seeded, pot, results)
    ensures pot == seeded - RaidCombat.SumStolen(results) && Kept(results) * seeded <= pot && 0.0 <= pot
    ensures forall i :: 0 <= i < |results| ==> results[i].stolenYield >= 0.0
  {
    hide Kept, RaidCombat.SumStolen;
  }

  lemma SweptIs(w: World, target: AsteroidId, others: seq<AsteroidId>, ids: seq<ExpeditionId>, c: Conditions)
    requires BetLedger.Inv(w.ledger) && ids != []
    ensures Swept(w, target, others, ids, c)
            == SettleAll(w.(battle := AfterRaids(Seeded(w, target), ids, c.defense, c.stakes)), target, others,
                         Results(Seeded(w, target), ids, c.defense, c.stakes), c)
  {
    hide BetLedger.Inv, SettleAll;
  }

  function PlannedRecirculation(plans: seq<Plan>): real {
    if plans == [] then 0.0 else PlannedRecirculation(plans[..|plans| - 1]) + plans[|plans| - 1].recirculate
  }

  /** Every token credited to a vault by recirculation is moved to the backing treasury by a plan. */
  lemma {:induction false} RecirculationIsBacked(w: World, target: AsteroidId, others: seq<AsteroidId>,
                                                 results: seq<RaidResult>, c: Conditions)
    requires BetLedger.Inv(w.ledger)
    ensures PlannedRecirculation(SettleAll(w, target, others, results, c).plans)
            == PlannedRecirculation(w.plans) + SumRecirculated(MovesOf(w, target, others, results, c))
  {
    hide Moved, BetLedger.Inv, Resolve, BetsOf;
    if results != [] {
      var n := |results| - 1;
      RecirculationIsBacked(w, target, others, results[..n], c);
      var before, r := SettleAll(w, target, others, results[..n], c), results[n];
      var moves := MovesOf(w, target, others, results[..n], c);
      assert MovesOf(w, target, others, results, c)[..|moves|] == moves;
      PlanRecirculatesMove(before, target, others, r, c.spoils(r.expeditionId), c.split, c.now);
    }
  }

  lemma PlanRecirculatesMove(w: World, target: AsteroidId, others: seq<AsteroidId>, r: RaidResult, stakes: seq<Payout>,
                             split: LossSplit, now: int)
    requires BetLedger.Inv(w.ledger)
    ensures PlannedRecirculation(Settled(w, target, others, r, stakes, split, now).plans)
            == PlannedRecirculation(w.plans) + MoveOf(w, r, stakes, split).recirculated
  {
    hide Moved, BetLedger.Inv, BetsOf, SpoilsOf, SumAmounts, SumBetShares;
    if HasOpenPool(w, r.expeditionId) {
      var plan := SettlementPlan(w.wagers[r.expeditionId], ResolutionOf(w, r, stakes, split));
      assert (w.plans + [plan])[..|w.plans|] == w.plans;
    }
  }

  // ----- The world in place -----

  /** Settling the wager alone: the recirculated share reaches the vaults, the plan the outbox. */
  ghost function WagerSettled(w: World, target: AsteroidId, others: seq<AsteroidId>, r: RaidResult, stakes: seq<Payout>,
                              split: LossSplit, now: int): World
    requires BetLedger.Inv(w.ledger)
  {
    if !HasOpenPool(w, r.expeditionId) then w
    else
      var resolution := ResolutionOf(w, r, stakes, split);
      Dispatched(w.(vaults := if !r.attackersWon && resolution.recirculated > 0.0
                              then Recirculated(w.vaults, target, others, resolution.recirculated) else w.vaults),
                 r.expeditionId, WinningSide(r), SettlementPlan(w.wagers[r.expeditionId], resolution), now)
  }

  /**
   * Settling a tracked wager with an open pool dispatches one plan: the whole wager back when the attackers won, what
   * the ledger's resolution says when they lost.
   */
  ghost predicate PaysByResult(w: World, w': World, r: RaidResult, stakes: seq<Payout>, split: LossSplit)
    requires BetLedger.Inv(w.ledger)
  {
    HasOpenPool(w, r.expeditionId) && w.wagers[r.expeditionId].amount > 0.0 ==>
      && |w'.plans| == |w.plans| + 1 && w'.plans[..|w.plans|] == w.plans
      && var legs := BuildLegs(w'.plans[|w.plans|]);
         && (r.attackersWon ==> ReturnsWhole(legs, w.wagers[r.expeditionId]))
         && (!r.attackersWon && NonNegative(stakes) && ValidSplit(split)
             && NonNegative(PoolBets(w.ledger, w.wagers[r.expeditionId].wagerId)) ==>
               SplitsAs(legs, ResolutionOf(w, r, stakes, split)))
  }

  lemma SettlingPaysByResult(w: World, target: AsteroidId, others: seq<AsteroidId>, r: RaidResult, stakes: seq<Payout>,
                             split: LossSplit, now: int)
    requires BetLedger.Inv(w.ledger)
    ensures PaysByResult(w, WagerSettled(w, target, others, r, stakes, split, now), r, stakes, split)
  {
    hide BetLedger.Inv, Recirculated, Resolve, BetsOf, SettlementPlan, BuildLegs, ReturnsWhole, SplitsAs, NonNegative, ValidSplit,
         Close, Positive;
    if HasOpenPool(w, r.expeditionId) && w.wagers[r.expeditionId].amount > 0.0 {
      var entry, resolution := w.wagers[r.expeditionId], ResolutionOf(w, r, stakes, split);
      var bets := PoolBets(w.ledger, entry.wagerId);
      SideOfResolution(resolution, bets, WinningSide(r), stakes, split);
      if r.attackersWon {
        SettlementFollowsResult(entry, resolution);
      } else if NonNegative(stakes) && ValidSplit(split) && NonNegative(bets) {
        ResolutionIsExact(bets, Defender, stakes, split);
        SettlementFollowsResult(entry, resolution);
      }
    }
  }

  lemma DebitThenSettle(w: World, target: AsteroidId, others: seq<AsteroidId>, r: RaidResult, stakes: seq<Payout>,
                        split: LossSplit, now: int)
    requires BetLedger.Inv(w.ledger)
    ensures Settled(w, target, others, r, stakes, split, now)
            == WagerSettled(w.(vaults := if r.attackersWon && r.stolenYield > 0.0 then Debited(w.vaults, target, r.stolenYield)
                                         else w.vaults), target, others, r, stakes, split, now)
  {
    hide BetLedger.Inv, Debited, Recirculated, Resolve, BetsOf;
  }

  // ----- Conservation of the vaults over runs -----

  /** What the raids of one sweep steal. */
  ghost function StolenAt(w: World, target: AsteroidId, ids: seq<ExpeditionId>, c: Conditions): real {
    if ids == [] then 0.0 else RaidCombat.SumStolen(Results(Seeded(w, target), ids, c.defense, c.stakes))
  }

  /** What the vaults hold beyond what settlement plans have moved into them. */
  ghost function Funded(w: World): real {
    Total(w.vaults) - PlannedRecirculation(w.plans)
  }

  /** One sweep lowers that by exactly what was stolen. */
  lemma SweepStealsFunds(w: World, target: AsteroidId, others: seq<AsteroidId>, ids: seq<ExpeditionId>, c: Conditions)
    requires WorldInv(w, {}) && AllDue(w.battle.tracker, target, ids) && Sensible(c) && target !in others
    ensures BetLedger.Inv(w.ledger)
    ensures Funded(Swept(w, target, others, ids, c)) == Funded(w) - StolenAt(w, target, ids, c)
    ensures StolenAt(w, target, ids, c) >= 0.0
  {
    InvParts(w);
    hide *;
    if ids == [] {
      NothingSwept(w, target, others, ids, c);
    } else {
      SweepConserves(w, target, others, ids, c);
      SweptIs(w, target, others, ids, c);
      var fought := w.(battle := AfterRaids(Seeded(w, target), ids, c.defense, c.stakes));
      var results := Results(Seeded(w, target), ids, c.defense, c.stakes);
      RecirculationIsBacked(fought, target, others, results, c);
      StolenIs(w, target, ids, c);
      FundedIs(w);
      FundedIs(Swept(w, target, others, ids, c));
      StealsNothingNegative(w, target, ids, c);
    }
  }

  lemma NothingSwept(w: World, target: AsteroidId, others: seq<AsteroidId>, ids: seq<ExpeditionId>, c: Conditions)
    requires BetLedger.Inv(w.ledger) && ids == []
    ensures Swept(w, target, others, ids, c) == w && StolenAt(w, target, ids, c) == 0.0
  {
    hide BetLedger.Inv;
  }

  lemma StolenIs(w: World, target: AsteroidId, ids: seq<ExpeditionId>, c: Conditions)
    requires ids != []
    ensures StolenAt(w, target, ids, c) == RaidCombat.SumStolen(Results(Seeded(w, target), ids, c.defense, c.stakes))
  {
  }

  lemma FundedIs(w: World)
    ensures Funded(w) == Total(w.vaults) - PlannedRecirculation(w.plans)
  {
  }

  lemma StealsNothingNegative(w: World, target: AsteroidId, ids: seq<ExpeditionId>, c: Conditions)
    requires WorldInv(w, {}) && AllDue(w.battle.tracker, target, ids) && Sensible(c) && ids != []
    ensures StolenAt(w, target, ids, c) >= 0.0
  {
    InvParts(w);
    hide *;
    StolenIs(w, target, ids, c);
    SeededPot(w, target);
    SweepParts(w, target, ids, c);
    var b := Seeded(w, target);
    SweepDrainsPot(b, target, ids, c.defense, c.stakes);
    DrainedParts(Held(b.pots, target), Held(AfterRaids(b, ids, c.defense, c.stakes).pots, target),
                 Results(b, ids, c.defense, c.stakes));
    StolenSum(Results(b, ids, c.defense, c.stakes));
  }

  lemma {:induction false} StolenSum(results: seq<RaidResult>)
    requires forall i :: 0 <= i < |results| ==> results[i].stolenYield >= 0.0
    ensures RaidCombat.SumStolen(results) >= 0.0
  {
    if results != [] {
      StolenSum(results[..|results| - 1]);
    }
  }

  /** What has come into the vaults from outside, and what raids have taken out. */
  datatype Flow = Flow(funded: real, stolen: real)

  function FundedBy(e: Event): real {
    if e.FundVault? then Max(e.amount, 0.0) else 0.0
  }

  ghost function StolenBy(w: World, e: Event): real {
    if e.ResolveDue? then StolenAt(w, e.target, e.ids, e.conditions) else 0.0
  }

  ghost function Flowed(f: Flow, w: World, e: Event): Flow {
    Flow(f.funded + FundedBy(e), f.stolen + StolenBy(w, e))
  }

  /** `w` is reached from a fresh world by `events`, in the course of which `flow` has gone in and out. */
  ghost predicate Flows(events: seq<Event>, w: World, flow: Flow) {
    if events == [] then w == NEW_WORLD && flow == Flow(0.0, 0.0)
    else
      var past, e := events[..|events| - 1], events[|events| - 1];
      exists before, f :: Flows(past, before, f) && BetLedger.Inv(before.ledger) && Enabled(before, e)
                          && w == Step(before, e) && flow == Flowed(f, before, e)
  }

  lemma {:induction false} EveryRunFlows(events: seq<Event>, w: World) returns (flow: Flow)
    requires Reaches(events, w)
    ensures Flows(events, w, flow)
  {
    hide Enabled, Step, Flowed, NEW_WORLD;
    if events == [] {
      flow := Flow(0.0, 0.0);
    } else {
      var before :| Reaches(events[..|events| - 1], before) && BetLedger.Inv(before.ledger)
                    && Enabled(before, events[|events| - 1]) && w == Step(before, events[|events| - 1]);
      var f := EveryRunFlows(events[..|events| - 1], before);
      flow := Flowed(f, before, events[|events| - 1]);
    }
  }

  lemma StepFunds(w: World, e: Event)
    requires WorldInv(w, {}) && Enabled(w, e)
    ensures BetLedger.Inv(w.ledger)
    ensures Funded(Step(w, e)) == Funded(w) + FundedBy(e) - StolenBy(w, e)
    ensures StolenBy(w, e) >= 0.0
  {
    InvParts(w);
    hide WorldInv, BetLedger.Inv, Swept, Sensible, AllDue, StolenAt, StartWithWager, Abandon, Credited, Funded;
    hide Start, ForgetRaids, ForgetPools;
    match e
    case FundVault(a, amount) => FundVaultFunds(w, a, amount);
    case ResolveDue(target, others, ids, c) => SweepStealsFunds(w, target, others, ids, c);
    case StartWagered(r, entry, now) => StartMovesNothing(w, r, entry, now);
    case LeaveRaid(wallet, now) => ForfeitMovesNothing(w, wallet, now);
    case _ => CleanupMovesNothing(w, e);
  }

  lemma FundVaultFunds(w: World, a: AsteroidId, amount: real)
    ensures Funded(w.(vaults := Credited(w.vaults, a, amount))) == Funded(w) + Max(amount, 0.0)
  {
    AddCredits(w.vaults, a, Max(amount, 0.0));
  }

  lemma StartMovesNothing(w: World, r: Request, entry: WagerEntry, now: int)
    ensures Funded(StartWithWager(w, r, entry, now)) == Funded(w)
  {
    hide Create, Place, CreatePool, Accepted;
    RefundMovesNothing(w.plans, entry);
  }

  lemma CleanupMovesNothing(w: World, e: Event)
    requires BetLedger.Inv(w.ledger) && (e.StartRaid? || e.DropOldRaids? || e.DropOldPools?)
    ensures Funded(Step(w, e)) == Funded(w)
  {
    hide BetLedger.Inv, Create, Accepted, DropStale, Without;
  }

  lemma RefundMovesNothing(plans: seq<Plan>, entry: WagerEntry)
    ensures PlannedRecirculation(plans + [RefundPlan(entry)]) == PlannedRecirculation(plans)
  {
    assert (plans + [RefundPlan(entry)])[..|plans|] == plans;
  }

  lemma ForfeitMovesNothing(w: World, wallet: Wallet, now: int)
    ensures Funded(Abandon(w, wallet, now)) == Funded(w)
  {
    hide Leave, Close, CanLeave;
    forall entry: WagerEntry ensures PlannedRecirculation(w.plans + [ForfeitPlan(entry)]) == PlannedRecirculation(w.plans) {
      assert (w.plans + [ForfeitPlan(entry)])[..|w.plans|] == w.plans;
    }
  }

  /**
   * In every run the vaults together hold exactly what funded them, plus what settlement plans recirculate into
   * them, less what raids stole.
   */
  lemma {:induction false} VaultsAreConserved(events: seq<Event>, w: World, flow: Flow)
    requires Flows(events, w, flow)
    ensures Reaches(events, w)
    ensures Total(w.vaults) == flow.funded + PlannedRecirculation(w.plans) - flow.stolen && flow.stolen >= 0.0
  {
    hide Enabled, Step, FundedBy, StolenBy, WorldInv;
    if events == [] {
      NothingFunded();
    } else {
      var past, e := events[..|events| - 1], events[|events| - 1];
      var before, f :| Flows(past, before, f) && BetLedger.Inv(before.ledger) && Enabled(before, e)
                       && w == Step(before, e) && flow == Flowed(f, before, e);
      VaultsAreConserved(past, before, f);
      ReachableInv(past, before);
      StepFunds(before, e);
    }
  }

  lemma NothingFunded()
    ensures Total(NEW_WORLD.vaults) == 0.0 && PlannedRecirculation(NEW_WORLD.plans) == 0.0
  {
  }

  lemma {:induction false} SettlingFightsNothing(w: World, target: AsteroidId, others: seq<AsteroidId>,
                                                 results: seq<RaidResult>, c: Conditions)
    requires BetLedger.Inv(w.ledger)
    ensures SettleAll(w, target, others, results, c).battle == w.battle
  {
    hide BetLedger.Inv, Moved, MoveOf, ResolutionOf;
    if results != [] {
      SettlingFightsNothing(w, target, others, results[..|results| - 1], c);
    }
  }

  /** After a sweep nothing is active at its target, and nothing new is active anywhere. */
  lemma SweptClears(w: World, target: AsteroidId, others: seq<AsteroidId>, ids: seq<ExpeditionId>, c: Conditions)
    requires WorldInv(w, {}) && AllDue(w.battle.tracker, target, ids) && ids != []
    ensures BetLedger.Inv(w.ledger)
    ensures var t' := Swept(w, target, others, ids, c).battle.tracker;
            forall id :: Raiding(t', id) ==>
              && Raiding(w.battle.tracker, id) && t'.expeditions[id] == w.battle.tracker.expeditions[id]
              && t'.expeditions[id].target != target
  {
    InvParts(w);
    hide WorldInv, BetLedger.Inv, Agree, SettleAll, AfterRaids, Results;
    var b := Seeded(w, target);
    RaidsResolve(b, target, ids, c.defense, c.stakes);
    SweptIs(w, target, others, ids, c);
    SettlingFightsNothing(w.(battle := AfterRaids(b, ids, c.defense, c.stakes)), target, others,
                          Results(b, ids, c.defense, c.stakes), c);
  }

  /** One turn of the sweep: a target, all other asteroids, and the raids due there. */
  datatype Turn = Turn(target: AsteroidId, others: seq<AsteroidId>, ids: seq<ExpeditionId>)

  ghost function AfterTurns(w: World, turns: seq<Turn>, c: Conditions): Option<World> {
    if turns == [] then Some(w)
    else
      var before := AfterTurns(w, turns[..|turns| - 1], c);
      var last := turns[|turns| - 1];
      if before.Some? && BetLedger.Inv(before.value.ledger) && AllDue(before.value.battle.tracker, last.target, last.ids)
      then Some(Swept(before.value, last.target, last.others, last.ids, c)) else None
  }

  ghost function StolenInTurns(w: World, turns: seq<Turn>, c: Conditions): real
    requires AfterTurns(w, turns, c).Some?
  {
    if turns == [] then 0.0
    else
      var last := turns[|turns| - 1];
      StolenInTurns(w, turns[..|turns| - 1], c)
      + StolenAt(AfterTurns(w, turns[..|turns| - 1], c).value, last.target, last.ids, c)
  }

  lemma OneMoreTurn(w: World, turns: seq<Turn>, now: World, turn: Turn, c: Conditions)
    requires AfterTurns(w, turns, c) == Some(now) && BetLedger.Inv(now.ledger)
    requires AllDue(now.battle.tracker, turn.target, turn.ids)
    ensures AfterTurns(w, turns + [turn], c) == Some(Swept(now, turn.target, turn.others, turn.ids, c))
    ensures StolenInTurns(w, turns + [turn], c) == StolenInTurns(w, turns, c) + StolenAt(now, turn.target, turn.ids, c)
  {
    hide Swept, StolenAt, AllDue, BetLedger.Inv;
    assert (turns + [turn])[..|turns|] == turns;
  }

  lemma {:induction false} OthersAreOther(asteroids: seq<AsteroidId>, defended: AsteroidId)
    ensures defended !in Others(asteroids, defended)
  {
    if asteroids != [] {
      OthersAreOther(asteroids[..|asteroids| - 1], defended);
    }
  }

  /** The others are all asteroids but the defended one. */
  lemma {:induction false} OthersAreTheRest(asteroids: seq<AsteroidId>, defended: AsteroidId)
    ensures multiset(Others(asteroids, defended)) == multiset(asteroids)[defended := 0]
  {
    if asteroids != [] {
      OthersAreTheRest(asteroids[..|asteroids| - 1], defended);
      assert asteroids == asteroids[..|asteroids| - 1] + [asteroids[|asteroids| - 1]];
    }
  }

  /** A discovery was made at the asteroid, or a raid against it is past its time. */
  ghost predicate DueAt(t: Tracker, discovered: set<AsteroidId>, now: int, a: AsteroidId) {
    a in discovered || exists id :: Targets(t, id, a) && t.expeditions[id].expiresAt <= now
  }

  /** No raid against an asteroid outside `targets` has ended. */
  ghost predicate Spared(t: Tracker, t': Tracker, targets: set<AsteroidId>) {
    forall id :: Raiding(t, id) && t.expeditions[id].target !in targets ==> Raiding(t', id)
  }

  /** Nothing due is left: no active raid against `cleared`, none past its time. */
  ghost predicate NoneDue(t: Tracker, cleared: set<AsteroidId>) {
    forall id :: Raiding(t, id) ==> t.expeditions[id].target !in cleared
  }

  function Others(asteroids: seq<AsteroidId>, defended: AsteroidId): seq<AsteroidId> {
    if asteroids == [] then []
    else
      var last := asteroids[|asteroids| - 1];
      Others(asteroids[..|asteroids| - 1], defended) + (if last != defended then [last] else [])
  }

  lemma SideOfResolution(r: Resolution, bets: seq<Payout>, side: Side, stakes: seq<Payout>, split: LossSplit)
    requires r == Resolve(bets, side, stakes, split)
    ensures r.side == side
  {
  }

  class GameWorld {
    const expeditions: ExpeditionTracker
    const raidEngine: RaidEngine
    const betEscrow: BetEscrow
    const raidVault: RaidVault
    var expeditionWagers: map<ExpeditionId, WagerEntry>
    /** What the settlement and booking hooks have been called with. */
    var dispatched: seq<Plan>
    var bookings: set<WagerId>
    /** The deposits the gateway has verified. */
    ghost var deposits: map<WagerId, WagerEntry>

    ghost predicate Wired()
      reads this
    {
      raidEngine.tracker == expeditions
    }

    ghost function Contents(): World
      reads this, expeditions, raidEngine, raidEngine.tracker, betEscrow, raidVault
    {
      World(raidEngine.Contents(), raidVault.balances, betEscrow.Contents(), expeditionWagers, dispatched, bookings, deposits)
    }

    constructor ()
      ensures Wired() && fresh(expeditions) && fresh(raidEngine) && fresh(betEscrow) && fresh(raidVault)
      ensures Contents() == NEW_WORLD && WorldInv(Contents(), {})
    {
      var tracker := new ExpeditionTracker();
      expeditions := tracker;
      raidEngine := new RaidEngine(tracker);
      betEscrow := new BetEscrow();
      raidVault := new RaidVault();
      expeditionWagers, dispatched, bookings, deposits := map[], [], {}, map[];
      new;
      NewWorldInv();
    }

    /** Books a verified deposit on the raid just created, or refunds it. */
    method BookWager(id: ExpeditionId, entry: WagerEntry, target: AsteroidId, source: AsteroidId, now: int)
      requires Wired() && BetLedger.Inv(betEscrow.Contents())
      modifies this`expeditionWagers, this`dispatched, this`bookings, betEscrow
      ensures Contents() == Book(old(Contents()), id, entry, target, source, now)
      ensures BetLedger.Inv(betEscrow.Contents())
    {
      hide BetLedger.Inv, CanPlace;
      var created := betEscrow.CreateRaidPool(entry.wagerId, target, source);
      if !created {
        dispatched := dispatched + [Plan(entry.wagerId, Some(Payout(entry.wallet, entry.amount)), 0.0, 0.0, [])];
        return;
      }
      EmptyPoolIsOpen(betEscrow.Contents(), entry.wagerId, entry.wallet);
      var placed := betEscrow.PlaceBet(entry.wagerId, entry.wallet, target, entry.amount, now);
      expeditionWagers := expeditionWagers[id := entry];
      bookings := bookings + {entry.wagerId};
    }

    method StartExpedition(r: Request, escrow: Option<WagerEntry>, now: int) returns (started: bool)
      requires Wired() && Agree(expeditions.Contents()) && BetLedger.Inv(betEscrow.Contents())
      requires r.id !in expeditions.expeditions
      modifies this`expeditionWagers, this`dispatched, this`bookings, betEscrow, expeditions
      ensures started == Accepted(old(Contents()), r)
      ensures started ==>
                && r.id in expeditions.expeditions && expeditions.expeditions[r.id].attackPower == r.power
                && expeditions.expeditions[r.id].bets == map[r.wallet := if escrow.Some? then 0.0 else r.bet]
      ensures !started ==> Contents() == old(Contents())
      ensures started && escrow.None? ==> Contents() == Launched(old(Contents()), r, r.bet)
      ensures started && escrow.Some? ==>
                Contents() == Book(Launched(old(Contents()), r, 0.0), r.id, escrow.value, r.target, r.source, now)
      ensures Agree(expeditions.Contents()) && BetLedger.Inv(betEscrow.Contents())
    {
      hide BetLedger.Inv, Agree, Create, Book;
      var stakeBet := if escrow.Some? then 0.0 else r.bet;
      started := expeditions.CreateExpedition(r.id, r.wallet, r.source, r.target, r.power, stakeBet, r.expiresAt, r.allowed);
      if started && escrow.Some? {
        BookWager(r.id, escrow.value, r.target, r.source, now);
      }
    }

    /** The gateway's submission of a verified deposit: a refused raid is refunded at once. */
    method SubmitWagerRaid(r: Request, entry: WagerEntry, now: int) returns (started: bool)
      requires Wired() && WorldInv(Contents(), {}) && Enabled(Contents(), StartWagered(r, entry, now))
      modifies this, betEscrow, expeditions
      ensures Contents() == StartWithWager(old(Contents()), r, entry, now)
      ensures Wired() && WorldInv(Contents(), {})
    {
      ghost var w := Contents();
      StartWithWagerKeepsInv(w, r, entry, now);
      InvParts(w);
      hide BetLedger.Inv, Agree, WorldInv, Launched, Book, CanCreate;
      deposits := deposits[entry.wagerId := entry];
      started := StartExpedition(r, Some(entry), now);
      if !started {
        dispatched := dispatched + [Plan(entry.wagerId, Some(Payout(entry.wallet, entry.amount)), 0.0, 0.0, [])];
      }
    }

    method ForfeitEscrowedWager(id: ExpeditionId, split: LossSplit, now: int)
      requires Wired() && BetLedger.Inv(betEscrow.Contents())
      modifies this`expeditionWagers, this`dispatched, betEscrow
      ensures Contents() == Forfeit(old(Contents()), id, now)
      ensures BetLedger.Inv(betEscrow.Contents())
    {
      hide BetLedger.Inv, Resolve, BetsOf;
      if id !in expeditionWagers {
        return;
      }
      var wager := expeditionWagers[id];
      var resolution := betEscrow.ResolveRaid(wager.wagerId, Defender, [], split, now);
      if resolution.None? {
        return;
      }
      expeditionWagers := expeditionWagers - {id};
      dispatched := dispatched + [Plan(wager.wagerId, None, wager.amount, 0.0, [])];
    }

    method LeaveExpedition(wallet: Wallet, split: LossSplit, now: int) returns (left: bool)
      requires Wired() && WorldInv(Contents(), {})
      modifies this`expeditionWagers, this`dispatched, betEscrow, expeditions
      ensures left == CanLeave(old(expeditions.Contents()), wallet)
      ensures Contents() == Abandon(old(Contents()), wallet, now)
      ensures WorldInv(Contents(), {})
    {
      hide BetLedger.Inv, Agree, WorldInv, Forfeit, Leave;
      ghost var w := Contents();
      AbandonKeepsInv(w, wallet, now);
      InvParts(w);
      var id := if wallet in expeditions.attackerExpeditions then expeditions.attackerExpeditions[wallet] else "";
      left := expeditions.LeaveExpedition(wallet);
      if left {
        ForfeitEscrowedWager(id, split, now);
      }
    }

    method PositivePayouts(payouts: seq<Payout>) returns (kept: seq<Payout>)
      ensures kept == OnlyPositive(payouts)
    {
      kept := [];
      for i := 0 to |payouts|
        invariant kept == OnlyPositive(payouts[..i])
      {
        assert payouts[..i + 1][..i] == payouts[..i];
        if payouts[i].amount > 0.0 {
          kept := kept + [payouts[i]];
        }
      }
      assert payouts[..|payouts|] == payouts;
    }

    method SettleEscrowedWager(r: RaidResult, target: AsteroidId, others: seq<AsteroidId>, stakes: seq<Payout>,
                               split: LossSplit, now: int)
      requires Wired() && BetLedger.Inv(betEscrow.Contents())
      modifies this`expeditionWagers, this`dispatched, betEscrow, raidVault
      ensures Contents() == WagerSettled(old(Contents()), target, others, r, stakes, split, now)
      ensures PaysByResult(old(Contents()), Contents(), r, stakes, split)
      ensures BetLedger.Inv(betEscrow.Contents())
    {
      SettlingPaysByResult(Contents(), target, others, r, stakes, split, now);
      hide PaysByResult;
      hide BetLedger.Inv, Resolve, BetsOf, Recirculated;
      if r.expeditionId !in expeditionWagers {
        return;
      }
      var wager := expeditionWagers[r.expeditionId];
      var side := if r.attackersWon then Attacker else Defender;
      var resolved := betEscrow.ResolveRaid(wager.wagerId, side, stakes, split, now);
      if resolved.None? {
        return;
      }
      var resolution := resolved.value;
      SideOfResolution(resolution, PoolBets(old(betEscrow.Contents()), wager.wagerId), side, stakes, split);
      expeditionWagers := expeditionWagers - {r.expeditionId};
      if side.Attacker? {
        dispatched := dispatched + [Plan(wager.wagerId, Some(Payout(wager.wallet, wager.amount)), 0.0, 0.0, [])];
        return;
      }
      var payouts := PositivePayouts(resolution.defenderPayouts);
      if resolution.recirculated > 0.0 {
        raidVault.Recirculate(target, others, resolution.recirculated);
      }
      dispatched := dispatched + [Plan(wager.wagerId, None, if resolution.burned > 0.0 then resolution.burned else 0.0,
                                       if resolution.recirculated > 0.0 then resolution.recirculated else 0.0, payouts)];
    }

    /** The loop over one target's results. */
    method SettleResults(results: seq<RaidResult>, target: AsteroidId, others: seq<AsteroidId>, c: Conditions)
      requires Wired() && BetLedger.Inv(betEscrow.Contents())
      modifies this`expeditionWagers, this`dispatched, betEscrow, raidVault
      ensures Contents() == SettleAll(old(Contents()), target, others, results, c)
      ensures BetLedger.Inv(betEscrow.Contents())
    {
      hide BetLedger.Inv, Settled, WagerSettled, Debited;
      for i := 0 to |results|
        invariant Contents() == SettleAll(old(Contents()), target, others, results[..i], c)
        invariant BetLedger.Inv(betEscrow.Contents())
      {
        assert results[..i + 1][..i] == results[..i];
        var r := results[i];
        DebitThenSettle(Contents(), target, others, r, c.spoils(r.expeditionId), c.split, c.now);
        if r.attackersWon && r.stolenYield > 0.0 {
          var _ := raidVault.Debit(target, r.stolenYield);
        }
        SettleEscrowedWager(r, target, others, c.spoils(r.expeditionId), c.split, c.now);
      }
      assert results[..|results|] == results;
    }

    /** Everything due at one target; `ids` are its raids in the order the tracker lists them. */
    method ResolveTarget(target: AsteroidId, others: seq<AsteroidId>, ids: seq<ExpeditionId>, c: Conditions)
      requires Wired() && WorldInv(Contents(), {}) && AllDue(expeditions.Contents(), target, ids) && Sensible(c)
      requires ids != []
      modifies this`expeditionWagers, this`dispatched, betEscrow, raidVault, raidEngine, expeditions
      ensures Contents() == Swept(old(Contents()), target, others, ids, c)
      ensures Wired() && WorldInv(Contents(), {})
    {
      ghost var w := Contents();
      InvParts(w);
      SweptKeepsInv(w, target, others, ids, c);
      SweptIs(w, target, others, ids, c);
      hide WorldInv, BetLedger.Inv, Agree, AfterRaids, Results, SettleAll, AllDue, Sensible;
      var treasury := Held(raidVault.balances, target);
      raidEngine.SetPendingYield(target, treasury);
      var results := raidEngine.ResolveAllRaids(ids, c.defense, c.stakes);
      SettleResults(results, target, others, c);
    }

    method AllBut(asteroids: seq<AsteroidId>, defended: AsteroidId) returns (others: seq<AsteroidId>)
      ensures others == Others(asteroids, defended)
      ensures multiset(others) == multiset(asteroids)[defended := 0]
    {
      OthersAreTheRest(asteroids, defended);
      others := [];
      for i := 0 to |asteroids|
        invariant others == Others(asteroids[..i], defended)
      {
        assert asteroids[..i + 1][..i] == asteroids[..i];
        if asteroids[i] != defended {
          others := others + [asteroids[i]];
        }
      }
      assert asteroids[..|asteroids|] == asteroids;
    }

    /** The raids against the asteroid, in some order. */
    method RaidsAgainst(target: AsteroidId) returns (ids: seq<ExpeditionId>)
      requires Agree(expeditions.Contents())
      ensures AllDue(expeditions.Contents(), target, ids)
    {
      hide Agree;
      var all := expeditions.GetExpeditionsTargeting(target);
      ids := [];
      var todo := all;
      while todo != {}
        invariant todo <= all && forall id :: id in all <==> id in todo || id in ids
        invariant forall i, j :: 0 <= i < j < |ids| ==> ids[i] != ids[j]
        invariant forall id :: id in ids ==> id !in todo
        decreases |todo|
      {
        var id :| id in todo;
        ids := ids + [id];
        todo := todo - {id};
      }
    }

    /** The targets of raids past their time. */
    method ExpiredTargets(now: int) returns (targets: set<AsteroidId>)
      ensures forall id :: Raiding(expeditions.Contents(), id) && expeditions.expeditions[id].expiresAt <= now ==>
                expeditions.expeditions[id].target in targets
      ensures forall a :: a in targets ==> DueAt(expeditions.Contents(), {}, now, a)
    {
      targets := set id | id in expeditions.expeditions && expeditions.expeditions[id].status.Active?
                          && now >= expeditions.expeditions[id].expiresAt :: expeditions.expeditions[id].target;
      forall a | a in targets ensures DueAt(expeditions.Contents(), {}, now, a) {
        var id :| id in expeditions.expeditions && expeditions.expeditions[id].status.Active?
                  && now >= expeditions.expeditions[id].expiresAt && a == expeditions.expeditions[id].target;
        assert Targets(expeditions.Contents(), id, a);
      }
    }

    /**
     * Resolves every raid whose target saw a discovery or whose time is up; `turns` are the targets in the order in
     * which they came. The vaults change by what the plans dispatched recirculate less what was stolen.
     */
    method ResolveDueRaids(discovered: set<AsteroidId>, asteroids: seq<AsteroidId>, c: Conditions)
      returns (ghost turns: seq<Turn>)
      requires Wired() && WorldInv(Contents(), {}) && Sensible(c)
      modifies this`expeditionWagers, this`dispatched, betEscrow, raidVault, raidEngine, expeditions
      ensures WorldInv(Contents(), {})
      ensures forall id :: Raiding(expeditions.Contents(), id) ==>
                && Raiding(old(expeditions.Contents()), id)
                && expeditions.expeditions[id].target !in discovered && c.now < expeditions.expeditions[id].expiresAt
      ensures forall id :: Raiding(old(expeditions.Contents()), id)
                           && !DueAt(old(expeditions.Contents()), discovered, c.now, old(expeditions.expeditions)[id].target) ==>
                Raiding(expeditions.Contents(), id)
      ensures forall i :: 0 <= i < |turns| ==>
                multiset(turns[i].others) == multiset(asteroids)[turns[i].target := 0]
      ensures AfterTurns(old(Contents()), turns, c) == Some(Contents())
      ensures Funded(Contents()) == Funded(old(Contents())) - StolenInTurns(old(Contents()), turns, c)
    {
      hide WorldInv, BetLedger.Inv, Agree, AllDue, Sensible, Swept, AfterTurns, StolenInTurns, StolenAt, Funded, DueAt;
      turns := [];
      NoTurns(Contents(), c);
      var expired := ExpiredTargets(c.now);
      var targets := discovered + expired;
      DueTargets(expeditions.Contents(), discovered, c.now, expired);
      var todo := targets;
      while todo != {}
        invariant Wired() && WorldInv(Contents(), {}) && todo <= targets
        invariant NoneDue(expeditions.Contents(), targets - todo)
        invariant StillRaiding(old(expeditions.Contents()), expeditions.Contents())
        invariant Spared(old(expeditions.Contents()), expeditions.Contents(), targets)
        invariant forall i :: 0 <= i < |turns| ==> multiset(turns[i].others) == multiset(asteroids)[turns[i].target := 0]
        invariant AfterTurns(old(Contents()), turns, c) == Some(Contents())
        invariant Funded(Contents()) == Funded(old(Contents())) - StolenInTurns(old(Contents()), turns, c)
        decreases |todo|
      {
        var target :| target in todo;
        InvParts(Contents());
        var ids := RaidsAgainst(target);
        NoneDueMore(Contents(), target, Others(asteroids, target), ids, c, targets - todo);
        assert targets - (todo - {target}) == targets - todo + {target};
        if ids != [] {
          ghost var before := Contents();
          var others := AllBut(asteroids, target);
          OthersAreOther(asteroids, target);
          SweepStealsFunds(before, target, others, ids, c);
          OneMoreTurn(old(Contents()), turns, before, Turn(target, others, ids), c);
          turns := turns + [Turn(target, others, ids)];
          ResolveTarget(target, others, ids, c);
          StillRaidingMore(old(expeditions.Contents()), before, target, others, ids, c);
          SparedMore(old(expeditions.Contents()), before, target, others, ids, c, targets);
        }
        todo := todo - {target};
      }
    }
  }

  lemma DueTargets(t: Tracker, discovered: set<AsteroidId>, now: int, expired: set<AsteroidId>)
    requires forall a :: a in expired ==> DueAt(t, {}, now, a)
    ensures forall a :: a in discovered + expired ==> DueAt(t, discovered, now, a)
    ensures Spared(t, t, discovered + expired)
  {
    hide Targets;
  }

  /** A sweep ends only the raids it lists. */
  lemma SparedMore(t: Tracker, w: World, target: AsteroidId, others: seq<AsteroidId>, ids: seq<ExpeditionId>, c: Conditions,
                   targets: set<AsteroidId>)
    requires WorldInv(w, {}) && AllDue(w.battle.tracker, target, ids) && ids != [] && target in targets
    requires Spared(t, w.battle.tracker, targets) && StillRaiding(t, w.battle.tracker)
    ensures BetLedger.Inv(w.ledger)
    ensures Spared(t, Swept(w, target, others, ids, c).battle.tracker, targets)
  {
    InvParts(w);
    hide WorldInv, BetLedger.Inv, Agree, SettleAll, AfterRaids, Results;
    var b := Seeded(w, target);
    RaidsResolve(b, target, ids, c.defense, c.stakes);
    SweptIs(w, target, others, ids, c);
    SettlingFightsNothing(w.(battle := AfterRaids(b, ids, c.defense, c.stakes)), target, others,
                          Results(b, ids, c.defense, c.stakes), c);
    assert forall id :: id in ids ==> Targets(w.battle.tracker, id, target);
  }

  lemma NoTurns(w: World, c: Conditions)
    ensures AfterTurns(w, [], c) == Some(w) && StolenInTurns(w, [], c) == 0.0
  {
  }

  /** Whatever is active was active before, unchanged. */
  ghost predicate StillRaiding(t: Tracker, t': Tracker) {
    forall id :: Raiding(t', id) ==> Raiding(t, id) && t'.expeditions[id] == t.expeditions[id]
  }

  lemma StillRaidingMore(t: Tracker, w: World, target: AsteroidId, others: seq<AsteroidId>, ids: seq<ExpeditionId>, c: Conditions)
    requires WorldInv(w, {}) && AllDue(w.battle.tracker, target, ids) && ids != [] && StillRaiding(t, w.battle.tracker)
    ensures BetLedger.Inv(w.ledger)
    ensures StillRaiding(t, Swept(w, target, others, ids, c).battle.tracker)
  {
    hide WorldInv, AllDue, BetLedger.Inv, Swept;
    SweptClears(w, target, others, ids, c);
  }

  lemma NoneDueMore(w: World, target: AsteroidId, others: seq<AsteroidId>, ids: seq<ExpeditionId>, c: Conditions,
                    cleared: set<AsteroidId>)
    requires WorldInv(w, {}) && AllDue(w.battle.tracker, target, ids) && NoneDue(w.battle.tracker, cleared)
    ensures BetLedger.Inv(w.ledger)
    ensures NoneDue((if ids == [] then w else Swept(w, target, others, ids, c)).battle.tracker, cleared + {target})
  {
    if ids != [] {
      hide WorldInv, AllDue, BetLedger.Inv, Swept;
      SweptClears(w, target, others, ids, c);
    } else {
      InvParts(w);
      hide WorldInv, BetLedger.Inv, SettleAll, Agree;
      forall id | Raiding(w.battle.tracker, id) ensures w.battle.tracker.expeditions[id].target != target {
        assert Targets(w.battle.tracker, id, target) ==> id in ids;
      }
    }
  }
}
