/**
 * The world and the escrow manager together: from a verified deposit to tokens paid, over runs in which
 * raids start and end, settlements retry, and the process dies and comes back.
 */
module EndToEnd {
  import opened Prelude
  import opened Settlement
  import G = GameWorlds
  import BetLedger
  import RaidCombat
  import RaidVaults
  import O = Outbox

  /**
   * `boxes` holds the escrow side of every deposit ever verified. `handed` are the present world's deposits
   * whose plan has reached the escrow manager, `lost` those whose record a crash kept out of the store.
   */
  datatype Joint = Joint(world: G.World, boxes: map<WagerId, O.Wager>, handed: set<WagerId>, lost: set<WagerId>)

  datatype Event =
    | Play(event: G.Event)
    | BookNow(id: WagerId)                  // the world's booking hook reaches the escrow manager
    | Hand(plan: nat)                       // so does a plan
    | Escrow(id: WagerId, step: O.Event)    // a step of one settlement
    | PowerLoss(vaults: RaidVaults.Balances)  // the world is gone; the vaults come back from their store

  ghost predicate Possible(j: Joint, e: Event) {
    match e
    case Play(g) => G.Enabled(j.world, g) && (g.StartWagered? ==> g.entry.wagerId !in j.boxes)
    case BookNow(id) => id in j.world.booked && id in j.boxes && j.boxes[id].at.Unbooked? && id !in j.handed
    case Hand(i) =>
      && i < |j.world.plans|
      && var id := j.world.plans[i].wagerId;
         id in j.boxes && id !in j.handed && (id in j.world.booked ==> !j.boxes[id].at.Unbooked?)
    case Escrow(id, o) => id in j.boxes && O.Enabled(j.boxes[id], o) && !o.Book? && !o.Settle? && !o.Crash?
    case PowerLoss(vaults) => RaidVaults.Solvent(vaults)
  }

  ghost function Crashed(boxes: map<WagerId, O.Wager>, maxRetries: nat): map<WagerId, O.Wager> {
    map id | id in boxes :: O.Step(boxes[id], O.Crash, maxRetries)
  }

  /** Deposits of which a crash leaves no record. */
  function Unrecorded(boxes: map<WagerId, O.Wager>): set<WagerId> {
    set id | id in boxes && boxes[id].store.None? && !boxes[id].at.Over?
  }

  ghost function Next(j: Joint, e: Event, maxRetries: nat): Joint
    requires Possible(j, e) && JointInv(j, maxRetries)
  {
    match e
    case Play(g) =>
      WorldHasLedger(j.world);
      Joint(G.Step(j.world, g),
            if g.StartWagered? then j.boxes[g.entry.wagerId := O.Deposited(g.entry.wagerId, g.entry.wallet, g.entry.amount)]
            else j.boxes,
            j.handed, j.lost)
    case BookNow(id) => j.(boxes := j.boxes[id := O.Step(j.boxes[id], O.Book, maxRetries)])
    case Hand(i) =>
      HandIsEnabled(j, i, maxRetries);
      var plan := j.world.plans[i];
      j.(boxes := j.boxes[plan.wagerId := O.Step(j.boxes[plan.wagerId], O.Settle(plan), maxRetries)],
         handed := j.handed + {plan.wagerId})
    case Escrow(id, o) => j.(boxes := j.boxes[id := O.Step(j.boxes[id], o, maxRetries)])
    case PowerLoss(vaults) =>
      Joint(G.NEW_WORLD.(vaults := vaults), Crashed(j.boxes, maxRetries), {}, j.lost + Unrecorded(j.boxes))
  }

  // ----- The invariant -----

  /** The manager is waiting for the deposit's plan. */
  ghost predicate Waiting(b: O.Wager, booked: bool) {
    b.at.Unbooked? || (booked && (b.at.Booking? || b.at.Idle?) && b.mem.Some? && b.mem.value.status.Active?)
  }

  /** The deposit is out of the world's hands: being settled, parked, paid, or down until boot loads it. */
  ghost predicate Settling(b: O.Wager) {
    O.Planned(b) || b.at.Down? || b.at.Over?
  }

  ghost predicate Placed(j: Joint, id: WagerId)
    requires id in j.boxes
  {
    if id in j.world.deposits && id !in j.handed then Waiting(j.boxes[id], id in j.world.booked) else Settling(j.boxes[id])
  }

  ghost predicate Matches(b: O.Wager, id: WagerId, deposits: map<WagerId, WagerEntry>) {
    b.id == id && (id in deposits ==> deposits[id] == WagerEntry(b.id, b.wallet, b.amount))
  }

  ghost predicate BoxInv(j: Joint, id: WagerId, maxRetries: nat)
    requires id in j.boxes
  {
    var b := j.boxes[id];
    && O.Inv(b, maxRetries) && Matches(b, id, j.world.deposits) && Placed(j, id)
    && (b.at.Over? ==> (b.plan == [] <==> id in j.lost)) && O.MovesAccounted(b)
  }

  ghost predicate JointInv(j: Joint, maxRetries: nat) {
    && G.WorldInv(j.world, {})
    && j.world.deposits.Keys <= j.boxes.Keys && j.lost <= j.boxes.Keys && j.handed <= j.world.deposits.Keys
    && (forall id :: id in j.lost ==> j.boxes[id].at.Over?)
    && forall id :: id in j.boxes ==> BoxInv(j, id, maxRetries)
  }

  lemma WorldHasLedger(w: G.World)
    requires G.WorldInv(w, {})
    ensures BetLedger.Inv(w.ledger)
  {
  }

  /** The world's plan is one the manager can take, whenever it arrives. */
  lemma HandIsEnabled(j: Joint, i: nat, maxRetries: nat)
    requires Possible(j, Hand(i)) && JointInv(j, maxRetries)
    ensures O.Enabled(j.boxes[j.world.plans[i].wagerId], O.Settle(j.world.plans[i]))
    ensures j.world.plans[i].wagerId in j.world.deposits
  {
    hide G.Tracked, G.Ledgered, G.Accounted, G.LocksAgree, ExactLegs, BuildLegs, O.Inv;
    var plan := j.world.plans[i];
    assert G.Fair(plan, j.world.booked, j.world.deposits);
    assert BoxInv(j, plan.wagerId, maxRetries);
    G.PlansFitTheOutbox(j.world, i, j.boxes[plan.wagerId]);
  }

  // ----- What the world's steps do to deposits, bookings and plans -----

  /** A step of the world changes nothing a settlement depends on but for the deposit it brings in. */
  ghost predicate Frames(w: G.World, w': G.World, e: G.Event) {
    && w'.deposits == (if e.StartWagered? then w.deposits[e.entry.wagerId := e.entry] else w.deposits)
    && (forall id :: id in w'.booked && !(e.StartWagered? && id == e.entry.wagerId) ==> id in w.booked)
    && w.booked <= w'.booked
  }

  lemma {:induction false} SettlingFrames(w: G.World, target: AsteroidId, others: seq<AsteroidId>,
                                          results: seq<RaidCombat.RaidResult>, c: G.Conditions)
    requires BetLedger.Inv(w.ledger)
    ensures var w' := G.SettleAll(w, target, others, results, c); w'.deposits == w.deposits && w'.booked == w.booked
  {
    hide BetLedger.Inv, G.MoveOf, G.ResolutionOf;
    if results != [] {
      SettlingFrames(w, target, others, results[..|results| - 1], c);
    }
  }

  lemma StepFrames(w: G.World, e: G.Event)
    requires BetLedger.Inv(w.ledger)
    ensures Frames(w, G.Step(w, e), e)
  {
    hide BetLedger.Inv, G.SettleAll;
    match e
    case ResolveDue(target, others, ids, c) =>
      var fought := w.(battle := RaidCombat.AfterRaids(G.Seeded(w, target), ids, c.defense, c.stakes));
      SettlingFrames(fought, target, others, RaidCombat.Results(G.Seeded(w, target), ids, c.defense, c.stakes), c);
    case _ =>
  }

  // ----- Every step keeps the invariant -----

  lemma PlayKeepsInv(j: Joint, g: G.Event, maxRetries: nat)
    requires JointInv(j, maxRetries) && Possible(j, Play(g))
    ensures JointInv(Next(j, Play(g), maxRetries), maxRetries)
  {
    hide G.WorldInv, G.Step, O.Inv, Settling;
    WorldHasLedger(j.world) by { KeepWorld(j, maxRetries); }
    G.StepKeepsInv(j.world, g) by { PlayIsEnabled(j, g); }
    StepFrames(j.world, g);
    var j' := Next(j, Play(g), maxRetries);
    forall id | id in j'.boxes ensures BoxInv(j', id, maxRetries) {
      if g.StartWagered? && id == g.entry.wagerId {
        FreshBox(g.entry, maxRetries) by { WageredIsPositive(j, g); }
      } else {
        assert BoxInv(j, id, maxRetries);
      }
    }
  }

  lemma KeepWorld(j: Joint, maxRetries: nat)
    requires JointInv(j, maxRetries)
    ensures G.WorldInv(j.world, {})
  {
  }

  lemma PlayIsEnabled(j: Joint, g: G.Event)
    requires Possible(j, Play(g))
    ensures G.Enabled(j.world, g)
  {
  }

  lemma WageredIsPositive(j: Joint, g: G.Event)
    requires Possible(j, Play(g)) && g.StartWagered?
    ensures g.entry.amount > 0.0
  {
  }

  lemma FreshBox(entry: WagerEntry, maxRetries: nat)
    requires entry.amount > 0.0
    ensures var b := O.Deposited(entry.wagerId, entry.wallet, entry.amount);
            && O.Inv(b, maxRetries) && b.at.Unbooked? && entry == WagerEntry(b.id, b.wallet, b.amount)
            && O.MovesAccounted(b)
  {
  }

  /** What a step of a settlement does to where it stands. */
  lemma BoxMoves(b: O.Wager, e: O.Event, maxRetries: nat)
    requires O.Enabled(b, e)
    ensures var b' := O.Step(b, e, maxRetries); b'.id == b.id && b'.wallet == b.wallet && b'.amount == b.amount
  {
    hide ExactLegs, BuildLegs, O.FirstUndone, O.Bump, O.MarkLeg, O.CountFailure, O.Strayed;
  }

  lemma BookWaits(b: O.Wager, maxRetries: nat)
    requires O.Inv(b, maxRetries) && b.at.Unbooked?
    ensures O.Enabled(b, O.Book) && Waiting(O.Step(b, O.Book, maxRetries), true)
    ensures !O.Step(b, O.Book, maxRetries).at.Over?
  {
  }

  lemma SettlePlans(b: O.Wager, plan: Plan, maxRetries: nat)
    requires O.Inv(b, maxRetries) && O.Enabled(b, O.Settle(plan))
    ensures var b' := O.Step(b, O.Settle(plan), maxRetries); Settling(b') && !b'.at.Over?
  {
    hide O.Inv;
    NoEmptyPlan(plan, b.amount) by { PositiveAmount(b, maxRetries); }
  }

  lemma PositiveAmount(b: O.Wager, maxRetries: nat)
    requires O.Inv(b, maxRetries)
    ensures b.amount > 0.0
  {
  }

  lemma NoEmptyPlan(plan: Plan, amount: real)
    requires amount > 0.0 && ExactLegs(BuildLegs(plan), amount)
    ensures BuildLegs(plan) != []
  {
    hide BuildLegs;
  }

  /** While the manager waits for the plan, only the outstanding put can complete. */
  lemma WaitingWaits(b: O.Wager, e: O.Event, booked: bool, maxRetries: nat)
    requires O.Inv(b, maxRetries) && Waiting(b, booked) && O.Enabled(b, e) && !e.Book? && !e.Settle? && !e.Crash?
    ensures Waiting(O.Step(b, e, maxRetries), booked) && !O.Step(b, e, maxRetries).at.Over?
  {
    hide O.Counted, O.CallsBounded, ExactLegs;
  }

  /** A settlement goes on, or ends with its record dropped. */
  lemma SettlingGoesOn(b: O.Wager, e: O.Event, maxRetries: nat)
    requires O.Inv(b, maxRetries) && Settling(b) && O.Enabled(b, e) && !e.Book? && !e.Settle? && !e.Crash?
    ensures Settling(O.Step(b, e, maxRetries))
    ensures O.Step(b, e, maxRetries).at.Over? ==> O.Step(b, e, maxRetries).plan != []
  {
    hide O.Step, O.Enabled, O.Inv;
    if O.Planned(b) {
      O.RankDrops(b, e, maxRetries);
    } else if b.at.Down? {
      LoadPlans(b, e, maxRetries);
    } else {
      O.NothingAfterOver(b, e, maxRetries);
      assert false;
    }
  }

  lemma LoadPlans(b: O.Wager, e: O.Event, maxRetries: nat)
    requires O.Inv(b, maxRetries) && b.at.Down? && O.Enabled(b, e) && !e.Book? && !e.Settle? && !e.Crash?
    ensures O.Planned(O.Step(b, e, maxRetries))
  {
    hide O.Counted, O.CallsBounded, BuildLegs;
    assert e.Load?;
    ForfeitAndRefundAreExact(WagerEntry(b.id, b.wallet, b.amount));
    NoEmptyPlan(RefundPlan(WagerEntry(b.id, b.wallet, b.amount)), b.amount);
  }

  /** A box changes by one of its own steps; the world does not. */
  lemma BoxStepKeepsInv(j: Joint, id: WagerId, e: O.Event, handed: set<WagerId>, maxRetries: nat)
    requires JointInv(j, maxRetries) && id in j.boxes && O.Enabled(j.boxes[id], e)
    requires handed == j.handed || (id in j.world.deposits && handed == j.handed + {id})
    requires var b' := O.Step(j.boxes[id], e, maxRetries);
             && (if id in j.world.deposits && id !in handed then Waiting(b', id in j.world.booked) else Settling(b'))
             && (b'.at.Over? ==> (b'.plan == [] <==> id in j.lost))
             && (id in j.lost ==> b'.at.Over?)
    ensures JointInv(j.(boxes := j.boxes[id := O.Step(j.boxes[id], e, maxRetries)], handed := handed), maxRetries)
  {
    hide G.WorldInv, O.Inv, O.Step, O.Enabled, Waiting, Settling, O.MovesAccounted;
    assert BoxInv(j, id, maxRetries);
    O.StepKeepsInv(j.boxes[id], e, maxRetries);
    O.StepAccountsMoves(j.boxes[id], e, maxRetries);
    BoxMoves(j.boxes[id], e, maxRetries);
    var j' := j.(boxes := j.boxes[id := O.Step(j.boxes[id], e, maxRetries)], handed := handed);
    forall x | x in j'.boxes ensures BoxInv(j', x, maxRetries) {
      assert BoxInv(j, x, maxRetries);
    }
  }

  lemma OverDoesNothing(b: O.Wager, e: O.Event, maxRetries: nat)
    requires O.Inv(b, maxRetries) && b.at.Over? && !e.Crash?
    ensures !O.Enabled(b, e)
  {
  }

  lemma EscrowKeepsInv(j: Joint, e: Event, maxRetries: nat)
    requires JointInv(j, maxRetries) && Possible(j, e) && (e.BookNow? || e.Hand? || e.Escrow?)
    ensures JointInv(Next(j, e, maxRetries), maxRetries)
  {
    hide G.WorldInv, O.Inv, O.Step, O.Enabled, Waiting, Settling;
    match e
    case BookNow(id) =>
      assert BoxInv(j, id, maxRetries);
      BookWaits(j.boxes[id], maxRetries);
      BookedIsDeposit(j, id, maxRetries);
      BoxStepKeepsInv(j, id, O.Book, j.handed, maxRetries);
    case Hand(i) =>
      HandIsEnabled(j, i, maxRetries);
      var plan := j.world.plans[i];
      assert BoxInv(j, plan.wagerId, maxRetries);
      SettlePlans(j.boxes[plan.wagerId], plan, maxRetries);
      if j.boxes[plan.wagerId].at.Over? {
        OverDoesNothing(j.boxes[plan.wagerId], O.Settle(plan), maxRetries);
      }
      BoxStepKeepsInv(j, plan.wagerId, O.Settle(plan), j.handed + {plan.wagerId}, maxRetries);
    case Escrow(id, o) =>
      assert BoxInv(j, id, maxRetries);
      if j.boxes[id].at.Over? {
        OverDoesNothing(j.boxes[id], o, maxRetries);
      }
      if id in j.world.deposits && id !in j.handed {
        WaitingWaits(j.boxes[id], o, id in j.world.booked, maxRetries);
      } else {
        SettlingGoesOn(j.boxes[id], o, maxRetries);
      }
      BoxStepKeepsInv(j, id, o, j.handed, maxRetries);
  }

  /** An unbooked box whose booking is due belongs to the present world. */
  lemma BookedIsDeposit(j: Joint, id: WagerId, maxRetries: nat)
    requires JointInv(j, maxRetries) && id in j.boxes && j.boxes[id].at.Unbooked? && id !in j.handed
    ensures id in j.world.deposits && id !in j.lost
  {
    hide G.WorldInv, O.LateInv;
    assert BoxInv(j, id, maxRetries);
    if id !in j.world.deposits {
      NothingPlannedYet(j.boxes[id], maxRetries);
    }
  }

  lemma NothingPlannedYet(b: O.Wager, maxRetries: nat)
    requires O.Inv(b, maxRetries) && b.at.Unbooked?
    ensures !Settling(b)
  {
    hide O.Counted, O.CallsBounded;
  }

  lemma CrashedBox(b: O.Wager, maxRetries: nat)
    requires O.Inv(b, maxRetries)
    ensures O.Enabled(b, O.Crash)
    ensures var b' := O.Step(b, O.Crash, maxRetries);
            && (b'.at.Down? || b'.at.Over?) && b'.id == b.id
            && (b'.at.Over? <==> b.at.Over? || b.store.None?)
            && (b.at.Over? ==> b' == b) && (b'.at.Over? && !b.at.Over? ==> b'.plan == [])
  {
  }

  lemma PowerLossKeepsInv(j: Joint, vaults: RaidVaults.Balances, maxRetries: nat)
    requires JointInv(j, maxRetries) && Possible(j, PowerLoss(vaults))
    ensures JointInv(Next(j, PowerLoss(vaults), maxRetries), maxRetries)
  {
    hide G.WorldInv, O.Inv, O.Step, O.Enabled;
    var j' := Next(j, PowerLoss(vaults), maxRetries);
    RestartedWorld(vaults);
    assert j'.world.deposits == map[];
    forall id | id in j'.boxes ensures BoxInv(j', id, maxRetries) {
      assert BoxInv(j, id, maxRetries);
      CrashedBox(j.boxes[id], maxRetries);
      O.StepKeepsInv(j.boxes[id], O.Crash, maxRetries);
      O.StepAccountsMoves(j.boxes[id], O.Crash, maxRetries);
    }
    forall id | id in j'.lost ensures id in j'.boxes && j'.boxes[id].at.Over? {
      assert BoxInv(j, id, maxRetries);
      CrashedBox(j.boxes[id], maxRetries);
    }
  }

  lemma RestartedWorld(vaults: RaidVaults.Balances)
    requires RaidVaults.Solvent(vaults)
    ensures G.WorldInv(G.NEW_WORLD.(vaults := vaults), {})
  {
    G.NewWorldInv();
    G.LedgerIgnoresBattle(G.NEW_WORLD, G.NEW_WORLD.(vaults := vaults));
    hide G.Ledgered, G.Sums, G.Tracked;
  }

  lemma NextKeepsInv(j: Joint, e: Event, maxRetries: nat)
    requires JointInv(j, maxRetries) && Possible(j, e)
    ensures JointInv(Next(j, e, maxRetries), maxRetries)
  {
    hide JointInv, Possible, Next;
    match e
    case Play(g) => PlayKeepsInv(j, g, maxRetries);
    case PowerLoss(vaults) => PowerLossKeepsInv(j, vaults, maxRetries);
    case _ => EscrowKeepsInv(j, e, maxRetries);
  }

  // ----- Runs -----

  const NEW_GAME := Joint(G.NEW_WORLD, map[], {}, {})

  /** `j` is reached from a new game by `events`, each possible when it happens. */
  ghost predicate Reaches(events: seq<Event>, j: Joint, maxRetries: nat) {
    if events == [] then j == NEW_GAME
    else exists before :: Reaches(events[..|events| - 1], before, maxRetries) && JointInv(before, maxRetries)
                          && Possible(before, events[|events| - 1]) && j == Next(before, events[|events| - 1], maxRetries)
  }

  lemma {:induction false} ReachableInv(events: seq<Event>, j: Joint, maxRetries: nat)
    requires Reaches(events, j, maxRetries)
    ensures JointInv(j, maxRetries)
  {
    hide JointInv, Possible, Next;
    if events == [] {
      NewGameInv(maxRetries);
    } else {
      var before :| Reaches(events[..|events| - 1], before, maxRetries) && JointInv(before, maxRetries)
                    && Possible(before, events[|events| - 1]) && j == Next(before, events[|events| - 1], maxRetries);
      NextKeepsInv(before, events[|events| - 1], maxRetries);
    }
  }

  lemma NewGameInv(maxRetries: nat)
    ensures JointInv(NEW_GAME, maxRetries)
  {
    hide G.WorldInv;
    G.NewWorldInv();
  }

  /** The plan's legs make up the deposit and each has moved tokens once beyond its lost confirmations. */
  ghost predicate Paid(b: O.Wager) {
    && b.at.Over? && b.plan != [] && SumLegs(b.plan) == b.amount && |b.landed| == |b.lost| == |b.plan|
    && forall i :: 0 <= i < |b.plan| ==> b.landed[i] == 1 + b.lost[i]
  }

  /** The world still holds the wager: it rides on a raid, or its one plan is on its way to the manager. */
  ghost predicate InPlay(j: Joint, id: WagerId) {
    && id in j.world.deposits && id !in j.handed
    && (G.Live(j.world.wagers, id) || G.PlansFor(j.world.plans, id) == 1)
  }

  /** The settlement can go on by itself. */
  ghost predicate UnderWay(b: O.Wager) {
    !O.Parked(b) && exists e :: O.Enabled(b, e) && !e.Crash? && !e.Settle?
  }

  /**
   * In every run each deposit ever verified is riding or about to be settled, or its settlement can go on, or
   * it is parked, or it has been paid out exactly, each leg once beyond its lost confirmations; all but those
   * whose record had not reached the store when the process died. The tokens moved for it are at most the deposit
   * beyond what lost confirmations and forgotten plans moved, and exactly that when it is paid.
   */
  lemma EveryDepositIsAccounted(events: seq<Event>, j: Joint, id: WagerId, maxRetries: nat)
    requires Reaches(events, j, maxRetries) && id in j.boxes
    ensures var b := j.boxes[id];
            O.PaidOnce(b) && (InPlay(j, id) || UnderWay(b) || O.Parked(b) || Paid(b) || (id in j.lost && b.at.Over?))
    ensures id in j.lost ==> !Paid(j.boxes[id])
    ensures O.MovesBounded(j.boxes[id])
  {
    ReachableInv(events, j, maxRetries);
    hide Reaches, O.MovesAccounted, O.MovesBounded, G.WorldInv, O.Inv, Waiting, Paid, InPlay, UnderWay, O.Parked;
    var b := j.boxes[id];
    assert BoxInv(j, id, maxRetries);
    O.LandingsAccounted(b, maxRetries);
    O.AccountedIsBounded(b, maxRetries);
    if id in j.lost {
      LostIsUnpaid(b);
    } else if id in j.world.deposits && id !in j.handed {
      StillInPlay(j, id, maxRetries);
    } else {
      SettlingEnds(b, maxRetries);
    }
  }

  lemma LostIsUnpaid(b: O.Wager)
    requires b.plan == []
    ensures !Paid(b)
  {
  }

  lemma StillInPlay(j: Joint, id: WagerId, maxRetries: nat)
    requires JointInv(j, maxRetries) && id in j.world.deposits && id !in j.handed
    ensures InPlay(j, id)
  {
    hide G.Tracked, G.Ledgered, G.AllFair, G.LocksAgree, G.Live, BoxInv;
    assert G.PlansFor(j.world.plans, id) + (if G.Live(j.world.wagers, id) then 1 else 0)
           == (if id in j.world.deposits then 1 else 0);
  }

  lemma SettlingEnds(b: O.Wager, maxRetries: nat)
    requires O.Inv(b, maxRetries) && O.PaidOnce(b) && Settling(b) && (b.at.Over? ==> b.plan != [])
    ensures UnderWay(b) || O.Parked(b) || Paid(b)
  {
    if b.at.Over? {
      hide O.Counted, O.CallsBounded;
    } else if b.at.Down? {
      DownCanLoad(b, maxRetries);
    } else if !O.Parked(b) {
      hide O.Inv, O.Enabled, Paid;
      O.NeverStuck(b, maxRetries);
      var e :| O.Enabled(b, e) && !e.Crash?;
      PlannedTakesNoPlan(b, e, maxRetries);
    }
  }

  lemma DownCanLoad(b: O.Wager, maxRetries: nat)
    requires O.Inv(b, maxRetries) && b.at.Down?
    ensures UnderWay(b)
  {
    hide O.Counted, O.CallsBounded;
    assert O.Enabled(b, O.Load);
  }

  lemma PlannedTakesNoPlan(b: O.Wager, e: O.Event, maxRetries: nat)
    requires O.Inv(b, maxRetries) && O.Planned(b) && O.Enabled(b, e)
    ensures !e.Settle?
  {
    hide O.Counted, O.CallsBounded, ExactLegs;
  }

  // ----- Runs without mishaps -----

  /** No crash, and no call that lands but reports failure. */
  predicate Calm(events: seq<Event>) {
    forall i :: 0 <= i < |events| ==> !events[i].PowerLoss? && !(events[i].Escrow? && events[i].step.LandThenThrow?)
  }

  predicate Unharmed(b: O.Wager) {
    O.AllZero(b.lost) && b.strayed == 0.0
  }

  ghost predicate AllUnharmed(j: Joint) {
    j.lost == {} && forall id :: id in j.boxes ==> Unharmed(j.boxes[id])
  }

  lemma CalmStep(j: Joint, e: Event, maxRetries: nat)
    requires JointInv(j, maxRetries) && Possible(j, e) && AllUnharmed(j)
    requires !e.PowerLoss? && !(e.Escrow? && e.step.LandThenThrow?)
    ensures AllUnharmed(Next(j, e, maxRetries))
  {
    hide G.WorldInv, G.Step, O.Inv, O.Step, O.Enabled, BoxInv, Unharmed;
    var j' := Next(j, e, maxRetries);
    forall id | id in j'.boxes ensures Unharmed(j'.boxes[id]) {
      if id in j.boxes && j'.boxes[id] == j.boxes[id] {
        assert Unharmed(j.boxes[id]);
      } else if e.Play? {
        NewBoxUnharmed(e.event.entry);
      } else {
        CalmBox(j, e, id, maxRetries);
      }
    }
  }

  lemma NewBoxUnharmed(entry: WagerEntry)
    ensures Unharmed(O.Deposited(entry.wagerId, entry.wallet, entry.amount))
  {
  }

  lemma CalmBox(j: Joint, e: Event, id: WagerId, maxRetries: nat)
    requires JointInv(j, maxRetries) && Possible(j, e) && (e.BookNow? || e.Hand? || e.Escrow?)
    requires id in j.boxes && Unharmed(j.boxes[id]) && !(e.Escrow? && e.step.LandThenThrow?)
    ensures id in Next(j, e, maxRetries).boxes && Unharmed(Next(j, e, maxRetries).boxes[id])
  {
    hide G.WorldInv, O.Inv, O.Step, O.Enabled, Unharmed;
    assert BoxInv(j, id, maxRetries);
    match e
    case BookNow(b) =>
      BookWaits(j.boxes[b], maxRetries) by { assert BoxInv(j, b, maxRetries); }
      if b == id { UnharmedStep(j.boxes[id], O.Book, maxRetries); }
    case Hand(i) =>
      HandIsEnabled(j, i, maxRetries);
      if j.world.plans[i].wagerId == id { UnharmedStep(j.boxes[id], O.Settle(j.world.plans[i]), maxRetries); }
    case Escrow(b, o) =>
      if b == id { UnharmedStep(j.boxes[id], o, maxRetries); }
  }

  lemma UnharmedStep(b: O.Wager, e: O.Event, maxRetries: nat)
    requires O.Inv(b, maxRetries) && O.Enabled(b, e) && Unharmed(b) && !e.Crash? && !e.LandThenThrow?
    ensures Unharmed(O.Step(b, e, maxRetries))
  {
    hide O.Inv, O.Step, O.Enabled, O.AllZero;
    O.StepLosesNothing(b, e, maxRetries);
    O.StepStraysNothing(b, e, maxRetries);
  }

  lemma {:induction false} CalmRun(events: seq<Event>, j: Joint, maxRetries: nat)
    requires Reaches(events, j, maxRetries) && Calm(events)
    ensures AllUnharmed(j)
  {
    hide JointInv, Possible, Next, AllUnharmed;
    if events == [] {
      NewGameUnharmed();
    } else {
      var before :| Reaches(events[..|events| - 1], before, maxRetries) && JointInv(before, maxRetries)
                    && Possible(before, events[|events| - 1]) && j == Next(before, events[|events| - 1], maxRetries);
      CalmRun(events[..|events| - 1], before, maxRetries);
      CalmStep(before, events[|events| - 1], maxRetries);
    }
  }

  lemma NewGameUnharmed()
    ensures AllUnharmed(NEW_GAME)
  {
  }

  /** Without crashes and misreported calls a deposit is in play, under way, parked, or paid exactly once, leg by leg. */
  lemma CalmRunsPayExactlyOnce(events: seq<Event>, j: Joint, id: WagerId, maxRetries: nat)
    requires Reaches(events, j, maxRetries) && Calm(events) && id in j.boxes
    ensures var b := j.boxes[id];
            && (InPlay(j, id) || UnderWay(b) || O.Parked(b) || Paid(b))
            && b.strayed == 0.0 && b.moved <= b.amount && (Paid(b) ==> b.moved == b.amount) && |b.landed| == |b.plan|
            && forall i :: 0 <= i < |b.plan| ==> b.landed[i] <= 1 && (Paid(b) ==> b.landed[i] == 1)
  {
    hide Reaches, Calm, InPlay, UnderWay, O.Parked, O.MovedBy;
    EveryDepositIsAccounted(events, j, id, maxRetries);
    CalmRun(events, j, maxRetries);
    assert Unharmed(j.boxes[id]);
    O.MovedNothing(j.boxes[id].plan, j.boxes[id].lost);
  }
}
