/** From a raid's outcome to tokens moved: in runs without mishaps every deposit is paid as its fate demands. */
module Payments {
  import opened Prelude
  import opened Settlement
  import opened EndToEnd
  import G = GameWorlds
  import F = Fates
  import BetLedger
  import RaidCombat
  import O = Outbox

  // ----- Plans are only ever added -----

  lemma {:induction false} SettlingAddsPlans(w: G.World, target: AsteroidId, others: seq<AsteroidId>,
                                             results: seq<RaidCombat.RaidResult>, c: G.Conditions)
    requires BetLedger.Inv(w.ledger)
    ensures w.plans <= G.SettleAll(w, target, others, results, c).plans
  {
    hide BetLedger.Inv, G.MoveOf, G.ResolutionOf, SettlementPlan;
    if results != [] {
      SettlingAddsPlans(w, target, others, results[..|results| - 1], c);
    }
  }

  lemma StepAddsPlans(w: G.World, e: G.Event)
    requires BetLedger.Inv(w.ledger)
    ensures w.plans <= G.Step(w, e).plans
  {
    hide BetLedger.Inv, G.SettleAll, G.Accepted;
    match e
    case ResolveDue(target, others, ids, c) =>
      var fought := w.(battle := RaidCombat.AfterRaids(G.Seeded(w, target), ids, c.defense, c.stakes));
      SettlingAddsPlans(fought, target, others, RaidCombat.Results(G.Seeded(w, target), ids, c.defense, c.stakes), c);
    case _ =>
  }

  // ----- The escrow side runs the world's plans -----

  /** The legs being run are those of the world's plan for the deposit. */
  ghost predicate RunsPlan(plans: seq<Plan>, id: WagerId, legs: seq<Leg>) {
    exists i :: 0 <= i < |plans| && plans[i].wagerId == id && BuildLegs(plans[i]) == legs
  }

  ghost predicate Linked(plans: seq<Plan>, id: WagerId, b: O.Wager) {
    !b.at.Down? && (b.plan != [] ==> RunsPlan(plans, id, b.plan))
  }

  ghost predicate AllLinked(j: Joint) {
    forall id :: id in j.boxes ==> Linked(j.world.plans, id, j.boxes[id])
  }

  lemma StaysLinked(plans: seq<Plan>, more: seq<Plan>, id: WagerId, b: O.Wager)
    requires Linked(plans, id, b) && plans <= more
    ensures Linked(more, id, b)
  {
    hide BuildLegs;
    if b.plan != [] {
      var i :| 0 <= i < |plans| && plans[i].wagerId == id && BuildLegs(plans[i]) == b.plan;
      assert more[i] == plans[i];
    }
  }

  /** Without a crash a step never changes the legs, unless it is the one that takes the plan. */
  lemma BoxKeepsPlan(b: O.Wager, e: O.Event, maxRetries: nat)
    requires O.Enabled(b, e) && !b.at.Down? && !e.Crash? && !e.Settle?
    ensures O.Step(b, e, maxRetries).plan == b.plan && !O.Step(b, e, maxRetries).at.Down?
  {
    hide ExactLegs, BuildLegs, O.FirstUndone, O.Bump, O.MarkLeg, O.CountFailure;
  }

  lemma BoxTakesPlan(b: O.Wager, plan: Plan, maxRetries: nat)
    requires O.Enabled(b, O.Settle(plan))
    ensures var b' := O.Step(b, O.Settle(plan), maxRetries); b'.plan == BuildLegs(plan) && !b'.at.Down?
  {
    hide ExactLegs, BuildLegs;
  }

  lemma HandLinks(j: Joint, i: nat, maxRetries: nat)
    requires JointInv(j, maxRetries) && Possible(j, Hand(i)) && AllLinked(j)
    ensures AllLinked(Next(j, Hand(i), maxRetries))
  {
    HandIsEnabled(j, i, maxRetries);
    hide G.WorldInv, O.Inv, O.Step, O.Enabled, BoxInv, BuildLegs;
    var plan := j.world.plans[i];
    BoxTakesPlan(j.boxes[plan.wagerId], plan, maxRetries);
    var j' := Next(j, Hand(i), maxRetries);
    forall id | id in j'.boxes ensures Linked(j'.world.plans, id, j'.boxes[id]) {
      assert id != plan.wagerId ==> Linked(j.world.plans, id, j.boxes[id]);
    }
  }

  lemma BoxLinks(j: Joint, e: Event, maxRetries: nat)
    requires JointInv(j, maxRetries) && Possible(j, e) && AllLinked(j) && (e.BookNow? || e.Escrow?)
    ensures AllLinked(Next(j, e, maxRetries))
  {
    hide G.WorldInv, O.Inv, O.Step, BoxInv, BuildLegs;
    var o := if e.BookNow? then O.Book else e.step;
    assert Linked(j.world.plans, e.id, j.boxes[e.id]);
    BoxKeepsPlan(j.boxes[e.id], o, maxRetries);
    var j' := Next(j, e, maxRetries);
    forall id | id in j'.boxes ensures Linked(j'.world.plans, id, j'.boxes[id]) {
      assert Linked(j.world.plans, id, j.boxes[id]);
    }
  }

  lemma PlayLinks(j: Joint, g: G.Event, maxRetries: nat)
    requires JointInv(j, maxRetries) && Possible(j, Play(g)) && AllLinked(j)
    ensures AllLinked(Next(j, Play(g), maxRetries))
  {
    WorldHasLedger(j.world);
    hide G.WorldInv, G.Step, G.Enabled, BoxInv, BuildLegs, Linked, BetLedger.Inv;
    StepAddsPlans(j.world, g);
    var j' := Next(j, Play(g), maxRetries);
    forall id | id in j'.boxes ensures Linked(j'.world.plans, id, j'.boxes[id]) {
      if id in j.boxes && !(g.StartWagered? && g.entry.wagerId == id) {
        StaysLinked(j.world.plans, j'.world.plans, id, j.boxes[id]);
      } else {
        NewBoxLinked(j'.world.plans, g.entry);
      }
    }
  }

  lemma NewBoxLinked(plans: seq<Plan>, entry: WagerEntry)
    ensures Linked(plans, entry.wagerId, O.Deposited(entry.wagerId, entry.wallet, entry.amount))
  {
  }

  lemma StepLinks(j: Joint, e: Event, maxRetries: nat)
    requires JointInv(j, maxRetries) && Possible(j, e) && AllLinked(j) && !e.PowerLoss?
    ensures AllLinked(Next(j, e, maxRetries))
  {
    hide JointInv, Possible, Next, AllLinked;
    match e
    case Play(g) => PlayLinks(j, g, maxRetries);
    case Hand(i) => HandLinks(j, i, maxRetries);
    case _ => BoxLinks(j, e, maxRetries);
  }

  // ----- The world's own run -----

  /** What happens in the world in the course of a joint run. */
  function Plays(events: seq<Event>): seq<G.Event> {
    if events == [] then []
    else
      var last := events[|events| - 1];
      Plays(events[..|events| - 1]) + (if last.Play? then [last.event] else [])
  }

  lemma OneMorePlay(past: seq<G.Event>, before: G.World, g: G.Event)
    requires G.Reaches(past, before) && BetLedger.Inv(before.ledger) && G.Enabled(before, g)
    ensures G.Reaches(past + [g], G.Step(before, g))
  {
    hide G.Enabled, G.Step, BetLedger.Inv;
    assert (past + [g])[..|past|] == past;
  }

  /** Without crashes the world's part of a joint run is a run of the world. */
  lemma WorldRunsOn(past: seq<G.Event>, j: Joint, e: Event, maxRetries: nat)
    requires JointInv(j, maxRetries) && Possible(j, e) && !e.PowerLoss? && G.Reaches(past, j.world)
    ensures G.Reaches(past + (if e.Play? then [e.event] else []), Next(j, e, maxRetries).world)
  {
    WorldHasLedger(j.world);
    hide G.WorldInv, G.Step, G.Reaches, G.Enabled, BoxInv, BetLedger.Inv, O.Inv, O.Step, O.Enabled;
    if e.Play? {
      OneMorePlay(past, j.world, e.event);
    } else {
      assert past + [] == past;
    }
  }

  lemma {:induction false} CalmLinks(events: seq<Event>, j: Joint, maxRetries: nat)
    requires Reaches(events, j, maxRetries) && Calm(events)
    ensures AllLinked(j) && G.Reaches(Plays(events), j.world)
  {
    hide JointInv, Possible, Next, AllLinked, G.Reaches;
    if events == [] {
      NewGameLinked();
    } else {
      var past, e := events[..|events| - 1], events[|events| - 1];
      var before :| Reaches(past, before, maxRetries) && JointInv(before, maxRetries)
                    && Possible(before, e) && j == Next(before, e, maxRetries);
      CalmLinks(past, before, maxRetries);
      StepLinks(before, e, maxRetries);
      WorldRunsOn(Plays(past), before, e, maxRetries);
    }
  }

  lemma NewGameLinked()
    ensures AllLinked(NEW_GAME) && G.Reaches([], NEW_GAME.world)
  {
  }

  // ----- Who is paid -----

  /**
   * In a run without crashes and misreported calls the legs run for a deposit are those its fate demands, and once it
   * is paid each of them has moved tokens exactly once: the whole wager back to the raider who won or was refused, the
   * whole wager burned when the raid was abandoned, the three shares, each defender's by their stake, when it was lost.
   */
  lemma CalmRunsPayByFate(events: seq<Event>, j: Joint, id: WagerId, fate: Option<F.Fate>, maxRetries: nat)
    requires Reaches(events, j, maxRetries) && Calm(events) && id in j.boxes
    requires F.Tells(Plays(events), j.world, id, fate)
    ensures var b := j.boxes[id];
            && (b.plan != [] ==> fate.Some? && F.LegsFollow(b.plan, O.EntryOf(b), fate.value))
            && (Paid(b) ==> b.plan != [] && |b.landed| == |b.plan| && forall i :: 0 <= i < |b.plan| ==> b.landed[i] == 1)
  {
    CalmLinks(events, j, maxRetries);
    CalmRunsPayExactlyOnce(events, j, id, maxRetries);
    F.FateDecidesPlan(Plays(events), j.world, id, fate);
    ReachableInv(events, j, maxRetries);
    hide Reaches, F.Tells, F.LegsFollow, G.Reaches, G.WorldInv, O.Inv, BuildLegs, Placed, InPlay, UnderWay, O.MovesAccounted;
    var b := j.boxes[id];
    assert Linked(j.world.plans, id, b) && BoxInv(j, id, maxRetries);
    if b.plan != [] {
      var i :| 0 <= i < |j.world.plans| && j.world.plans[i].wagerId == id && BuildLegs(j.world.plans[i]) == b.plan;
      assert F.Follows(j.world.plans[i], j.world.deposits[id], fate.value);
    }
  }

  /** Such a fate there is in every run. */
  lemma CalmRunsHaveFates(events: seq<Event>, j: Joint, id: WagerId, maxRetries: nat) returns (fate: Option<F.Fate>)
    requires Reaches(events, j, maxRetries) && Calm(events)
    ensures F.Tells(Plays(events), j.world, id, fate)
  {
    CalmLinks(events, j, maxRetries);
    hide Reaches, F.Tells, G.Reaches, AllLinked;
    fate := F.EveryRunTells(Plays(events), j.world, id);
  }
}
