/**
 * The durable settlement outbox as a step system, one wager at a time.
 *
 * A step is one atomic stretch of the escrow manager between two awaits, one chain event, or
 * a crash. `mem` is the manager's own record, `store` the durable one; `plan`, `landed`,
 * `lost`, `moved`, `strayed`, `calls` and `crashes` only observe. A sweep may start on a record whose
 * plan is still being put; the run is then `early` until that put completes.
 */
module Outbox {
  import opened Prelude
  import opened Settlement

  datatype Status = Active | Settling | Failed

  datatype Record = Record(wallet: Wallet, amount: real, status: Status, legs: seq<Leg>, retries: nat)

  /** Where the manager's continuation for a wager stands. */
  datatype Point =
    | Unbooked               // deposit verified on chain, nothing recorded yet
    | Booking                // active record in memory, its put outstanding
    | Idle                   // memory and store agree, nothing running
    | Planning               // legs built in memory, their put outstanding
    | Calling(leg: nat)      // chain call for this leg outstanding
    | Landed(leg: nat)       // leg confirmed on chain, not yet marked
    | Marked(leg: nat)       // leg marked done in memory, its put outstanding
    | Erring                 // retry counted in memory, its put outstanding
    | Removing               // all legs done, record dropped from memory, delete outstanding
    | Down                   // lost from memory by a crash, still in the store
    | Over                   // in neither memory nor store

  datatype Wager = Wager(
    id: WagerId, wallet: Wallet, amount: real,
    mem: Option<Record>, store: Option<Record>, at: Point,
    early: bool,             // the legs are being run while the plan's put is outstanding
    plan: seq<Leg>,          // the legs as built, none done
    landed: seq<nat>,        // how often each leg has moved tokens
    lost: seq<nat>,          // confirmations of each leg that no done flag survived
    moved: real,             // tokens moved for the wager, ever
    strayed: real,           // those moved under a plan that a crash kept out of the store
    calls: nat, crashes: nat)  // since the plan was made

  datatype Event =
    | Book | Settle(plan: Plan) | Sweep | Put
    | Land | Throw | LandThenThrow | MarkDone
    | Crash | Load

  function Deposited(id: WagerId, wallet: Wallet, amount: real): Wager {
    Wager(id, wallet, amount, None, None, Unbooked, false, [], [], [], 0.0, 0.0, 0, 0)
  }

  // ----- Legs and done flags -----

  function FirstUndone(legs: seq<Leg>, from: nat := 0): (i: nat)
    requires from <= |legs|
    ensures from <= i <= |legs|
    ensures i < |legs| ==> !legs[i].done
    ensures forall j :: from <= j < i ==> legs[j].done
    decreases |legs| - from
  {
    if from == |legs| || !legs[from].done then from else FirstUndone(legs, from + 1)
  }

  /** The legs of `plan` with exactly the first `n` marked done. */
  ghost predicate Progress(legs: seq<Leg>, plan: seq<Leg>, n: nat) {
    && |legs| == |plan| && n <= |plan|
    && forall i :: 0 <= i < |plan| ==> legs[i] == plan[i].(done := i < n)
  }

  /** A record's share of `outstandingLiability`: the whole amount while active or settling. */
  function Liability(r: Record): real {
    if r.status.Failed? then 0.0 else r.amount
  }

  ghost function Liabilities(records: map<WagerId, Record>): map<WagerId, real> {
    map id | id in records :: Liability(records[id])
  }

  // ----- Steps -----

  function MarkLeg(r: Record, i: nat): Record
    requires i < |r.legs|
  {
    r.(legs := r.legs[i := r.legs[i].(done := true)])
  }

  function CountFailure(r: Record, maxRetries: nat): Record {
    r.(retries := r.retries + 1, status := if r.retries + 1 >= maxRetries then Failed else r.status)
  }

  function Zeros(n: nat): seq<nat> {
    seq(n, i => 0)
  }

  /** Entering, or going round, the leg loop. */
  function RunLegs(w: Wager): Wager
    requires w.mem.Some?
  {
    var i := FirstUndone(w.mem.value.legs);
    if i < |w.mem.value.legs| then w.(at := Calling(i), calls := w.calls + 1)
    else w.(mem := None, at := Removing)
  }

  function Plans(w: Wager, record: Record, legs: seq<Leg>): Wager {
    w.(mem := Some(record.(legs := legs, status := Settling)), at := Planning, plan := legs,
       landed := Zeros(|legs|), lost := Zeros(|legs|), calls := 0, crashes := 0)
  }

  function Fail(w: Wager, maxRetries: nat): Wager
    requires w.mem.Some?
  {
    w.(mem := Some(CountFailure(w.mem.value, maxRetries)), at := Erring)
  }

  /** The record whose put a run can get ahead of. */
  function PlannedRecord(w: Wager): Record {
    Record(w.wallet, w.amount, Settling, w.plan, 0)
  }

  /** A crash before the plan is stored forgets it, with whatever its first leg has moved. */
  function Strayed(w: Wager): real {
    w.strayed + if w.plan != [] && w.landed != [] && w.landed[0] > 0 then w.plan[0].amount else 0.0
  }

  function Bump(counts: seq<nat>, i: nat): seq<nat> {
    if i < |counts| then counts[i := counts[i] + 1] else counts
  }

  function EntryOf(w: Wager): WagerEntry {
    WagerEntry(w.id, w.wallet, w.amount)
  }

  /** The leg being called moves its tokens. */
  function MoveTokens(w: Wager): Wager
    requires w.at.Calling?
  {
    w.(landed := Bump(w.landed, w.at.leg), moved := w.moved + if w.at.leg < |w.plan| then w.plan[w.at.leg].amount else 0.0)
  }

  predicate Enabled(w: Wager, e: Event) {
    match e
    case Book => w.at.Unbooked?
    case Settle(plan) =>
      // The world hands over one plan per wager, and only a refund for an unbooked one.
      && ExactLegs(BuildLegs(plan), w.amount)
      && (if w.at.Unbooked? then plan == RefundPlan(EntryOf(w))
          else (w.at.Booking? || w.at.Idle?) && w.mem.Some? && w.mem.value.status.Active?)
    case Sweep => (w.at.Idle? || w.at.Planning?) && w.mem.Some? && w.mem.value.status.Settling?
    case Put =>
      w.at.Removing? || (w.mem.Some? && (w.early || w.at.Booking? || w.at.Planning? || w.at.Marked? || w.at.Erring?))
    case Land => w.at.Calling?
    case Throw => w.at.Calling? && w.mem.Some?
    case LandThenThrow => w.at.Calling? && w.mem.Some?
    case MarkDone => w.at.Landed? && w.mem.Some? && w.at.leg < |w.mem.value.legs|
    case Crash => true
    case Load => w.at.Down? && w.store.Some?
  }

  function Step(w: Wager, e: Event, maxRetries: nat): Wager
    requires Enabled(w, e)
  {
    match e
    case Book => w.(mem := Some(Record(w.wallet, w.amount, Active, [], 0)), at := Booking)
    case Settle(plan) =>
      Plans(w, if w.mem.Some? then w.mem.value else Record(w.wallet, w.amount, Active, [], 0), BuildLegs(plan))
    case Sweep => RunLegs(w).(early := w.at.Planning?)
    case Put =>
      if w.at.Removing? then w.(store := None, at := Over)
      else if w.early then w.(store := Some(PlannedRecord(w)), early := false)
      else
        var saved := w.(store := w.mem);
        if w.at.Booking? || w.at.Erring? then saved.(at := Idle) else RunLegs(saved)
    case Land => MoveTokens(w).(at := Landed(w.at.leg))
    case Throw => Fail(w, maxRetries)
    case LandThenThrow =>
      Fail(MoveTokens(w).(lost := Bump(w.lost, w.at.leg)), maxRetries)
    case MarkDone =>
      w.(mem := Some(MarkLeg(w.mem.value, w.at.leg)), at := Marked(w.at.leg))
    case Crash =>
      if w.at.Over? then w
      else if w.store.None? then Deposited(w.id, w.wallet, w.amount).(at := Over, moved := w.moved, strayed := Strayed(w))
      else
        var down := w.(mem := None, at := Down, crashes := w.crashes + 1);
        if w.store.value.status.Active? then
          down.(early := false, plan := [], landed := [], lost := [], strayed := Strayed(w))
        else if w.at.Landed? || w.at.Marked? then down.(lost := Bump(w.lost, w.at.leg))
        else down
    case Load =>
      var r := w.store.value;
      match r.status
      case Failed => w.(mem := Some(r), at := Idle)
      case Active => Plans(w, r.(retries := 0), BuildLegs(RefundPlan(WagerEntry(w.id, r.wallet, r.amount))))
      case Settling => RunLegs(w.(mem := Some(r)))
  }

  /** The state after a whole run, or `None` when some event could not happen. */
  function Run(w: Wager, events: seq<Event>, maxRetries: nat): Option<Wager> {
    if events == [] then Some(w)
    else
      var before := Run(w, events[..|events| - 1], maxRetries);
      var e := events[|events| - 1];
      if before.Some? && Enabled(before.value, e) then Some(Step(before.value, e, maxRetries)) else None
  }

  // ----- The invariant -----

  /** A retry budget of 0 still allows the first attempt. */
  function Attempts(maxRetries: nat): nat {
    if maxRetries == 0 then 1 else maxRetries
  }

  ghost predicate ActiveRecord(w: Wager, r: Record) {
    r == Record(w.wallet, w.amount, Active, [], 0)
  }

  /** A record of the current plan with the first `n` legs done. */
  ghost predicate PlanRecord(w: Wager, r: Record, n: nat, maxRetries: nat) {
    && r.wallet == w.wallet && r.amount == w.amount && !r.status.Active?
    && Progress(r.legs, w.plan, n)
    && (r.status.Settling? ==> r.retries < Attempts(maxRetries))
    && (r.status.Failed? ==> n < |w.plan| && r.retries == Attempts(maxRetries))
  }

  ghost predicate SettlingRecord(w: Wager, r: Record, n: nat, maxRetries: nat) {
    r.status.Settling? && PlanRecord(w, r, n, maxRetries)
  }

  /** Legs whose done flag has reached the store. */
  function DurablyDone(w: Wager): nat {
    if w.at.Over? then |w.plan|
    else if w.store.Some? && !w.store.value.status.Active? then FirstUndone(w.store.value.legs)
    else 0
  }

  predicate AllZero(counts: seq<nat>) {
    forall i :: 0 <= i < |counts| ==> counts[i] == 0
  }

  ghost predicate Shape(w: Wager, maxRetries: nat) {
    match w.at
    case Unbooked => w.mem.None? && w.store.None? && w.plan == []
    case Booking => w.mem.Some? && w.store.None? && w.plan == [] && ActiveRecord(w, w.mem.value)
    case Idle =>
      && w.mem.Some? && w.store == w.mem
      && if w.mem.value.status.Active? then w.plan == [] && ActiveRecord(w, w.mem.value)
         else w.plan != [] && PlanRecord(w, w.mem.value, FirstUndone(w.mem.value.legs), maxRetries)
    case Planning =>
      && w.mem.Some? && w.plan != [] && SettlingRecord(w, w.mem.value, 0, maxRetries)
      && w.mem.value.retries == w.calls == w.crashes == 0 && AllZero(w.landed)
      && (w.store.Some? ==> ActiveRecord(w, w.store.value))
    case Calling(i) =>
      w.mem.Some? && w.store == w.mem && i < |w.plan| && SettlingRecord(w, w.mem.value, i, maxRetries)
    case Landed(i) =>
      w.mem.Some? && w.store == w.mem && i < |w.plan| && SettlingRecord(w, w.mem.value, i, maxRetries)
    case Marked(i) =>
      && w.mem.Some? && w.store.Some? && i < |w.plan| && w.mem.value.retries == w.store.value.retries
      && SettlingRecord(w, w.store.value, i, maxRetries) && SettlingRecord(w, w.mem.value, i + 1, maxRetries)
    case Erring =>
      && w.mem.Some? && w.store.Some? && w.plan != []
      && SettlingRecord(w, w.store.value, FirstUndone(w.store.value.legs), maxRetries)
      && PlanRecord(w, w.mem.value, FirstUndone(w.store.value.legs), maxRetries)
      && w.mem.value.retries == w.store.value.retries + 1
      && FirstUndone(w.store.value.legs) < |w.plan|
    case Removing =>
      && w.mem.None? && w.store.Some? && w.plan != [] && SettlingRecord(w, w.store.value, |w.plan|, maxRetries)
    case Down =>
      && w.mem.None? && w.store.Some? && w.crashes > 0
      && if w.store.value.status.Active? then w.plan == [] && ActiveRecord(w, w.store.value)
         else w.plan != [] && PlanRecord(w, w.store.value, FirstUndone(w.store.value.legs), maxRetries)
    case Over => w.mem.None? && w.store.None?
  }

  function InWindow(w: Wager, i: nat): nat {
    if w.at == Landed(i) || w.at == Marked(i) then 1 else 0
  }

  /** Every landing is accounted for by a durable done flag, the open window, or a lost one. */
  ghost predicate Counted(w: Wager) {
    && |w.landed| == |w.lost| == |w.plan|
    && forall i :: 0 <= i < |w.plan| ==>
         && w.landed[i] == (if i < DurablyDone(w) then 1 else 0) + InWindow(w, i) + w.lost[i]
         && (w.landed[i] > 0 ==> i <= DurablyDone(w))
  }

  /** Without a crash, every chain call so far either finished a leg or used up a retry. */
  ghost predicate CallsBounded(w: Wager, maxRetries: nat) {
    w.crashes == 0 && w.plan != [] ==>
      && w.calls <= |w.plan| + Attempts(maxRetries)
      && (w.mem.Some? ==>
            w.calls == FirstUndone(w.mem.value.legs) + w.mem.value.retries
                       + (if w.at.Calling? || w.at.Landed? then 1 else 0))
      && (w.at.Removing? && w.store.Some? ==> w.calls == |w.plan| + w.store.value.retries)
  }

  /** The invariant while no run is ahead of its plan's put. */
  ghost predicate LateInv(w: Wager, maxRetries: nat) {
    && !w.early && w.amount > 0.0 && w.strayed >= 0.0
    && (w.plan == [] || ExactLegs(w.plan, w.amount))
    && Shape(w, maxRetries) && Counted(w) && CallsBounded(w, maxRetries)
  }

  /** Once its plan's put completes, an early run is like any other. */
  function AsStored(w: Wager): Wager {
    if w.early then w.(store := Some(PlannedRecord(w)), early := false) else w
  }

  ghost predicate Ahead(w: Wager) {
    && w.mem.Some? && w.plan != [] && w.crashes == 0
    && (w.at.Calling? || w.at.Landed? || w.at.Marked? || w.at.Erring?)
    && (w.store.Some? ==> ActiveRecord(w, w.store.value))
    && (w.at.Calling? ==> w.at.leg == 0 && AllZero(w.landed))
    && |w.landed| == |w.plan| && w.landed[0] <= 1 && forall i :: 0 < i < |w.landed| ==> w.landed[i] == 0
  }

  ghost predicate Inv(w: Wager, maxRetries: nat) {
    LateInv(AsStored(w), maxRetries) && (w.early ==> Ahead(w))
  }

  lemma FirstUndoneIs(legs: seq<Leg>, plan: seq<Leg>, n: nat)
    requires Progress(legs, plan, n)
    ensures FirstUndone(legs) == n
  {
    FirstUndoneFrom(legs, plan, n, 0);
  }

  lemma {:induction false} FirstUndoneFrom(legs: seq<Leg>, plan: seq<Leg>, n: nat, from: nat)
    requires Progress(legs, plan, n) && from <= n
    ensures FirstUndone(legs, from) == n
    decreases n - from
  {
    if from < n {
      FirstUndoneFrom(legs, plan, n, from + 1);
    }
  }

  lemma RunLegsKeepsInv(w: Wager, n: nat, maxRetries: nat)
    requires !w.early && w.strayed >= 0.0 && w.amount > 0.0 && w.plan != [] && ExactLegs(w.plan, w.amount)
    requires w.mem.Some? && w.store == w.mem && SettlingRecord(w, w.mem.value, n, maxRetries)
    requires |w.landed| == |w.lost| == |w.plan|
    requires forall i :: 0 <= i < |w.plan| ==>
               w.landed[i] == (if i < n then 1 else 0) + w.lost[i] && (w.landed[i] > 0 ==> i <= n)
    requires w.crashes == 0 ==> w.calls == n + w.mem.value.retries
    ensures LateInv(RunLegs(w), maxRetries)
  {
    hide ExactLegs;
    FirstUndoneIs(w.mem.value.legs, w.plan, n);
  }

  lemma PlansKeepsInv(w: Wager, record: Record, legs: seq<Leg>, maxRetries: nat)
    requires !w.early && w.strayed >= 0.0 && w.amount > 0.0 && ExactLegs(legs, w.amount)
    requires ActiveRecord(w, record)
    requires w.store.Some? ==> ActiveRecord(w, w.store.value)
    ensures LateInv(Plans(w, record, legs), maxRetries)
  {
    var w' := Plans(w, record, legs);
    assert legs != [];
    FirstUndoneIs(w'.mem.value.legs, legs, 0);
  }

  lemma PutKeepsInv(w: Wager, maxRetries: nat)
    requires LateInv(w, maxRetries) && Enabled(w, Put)
    ensures LateInv(Step(w, Put, maxRetries), maxRetries)
  {
    hide ExactLegs;
    if w.at.Planning? {
      PlanningPutKeepsInv(w, maxRetries);
    } else if w.at.Marked? {
      MarkedPutKeepsInv(w, maxRetries);
    } else if w.at.Erring? {
      FirstUndoneIs(w.mem.value.legs, w.plan, FirstUndone(w.store.value.legs));
    } else if w.at.Removing? {
      FirstUndoneIs(w.store.value.legs, w.plan, |w.plan|);
    }
  }

  lemma PlanningPutKeepsInv(w: Wager, maxRetries: nat)
    requires LateInv(w, maxRetries) && w.at.Planning?
    ensures LateInv(Step(w, Put, maxRetries), maxRetries)
  {
    hide ExactLegs;
    FirstUndoneIs(w.mem.value.legs, w.plan, 0);
    RunLegsKeepsInv(w.(store := w.mem), 0, maxRetries);
  }

  lemma MarkedPutKeepsInv(w: Wager, maxRetries: nat)
    requires LateInv(w, maxRetries) && w.at.Marked?
    ensures LateInv(Step(w, Put, maxRetries), maxRetries)
  {
    hide ExactLegs;
    var i := w.at.leg;
    FirstUndoneIs(w.store.value.legs, w.plan, i);
    FirstUndoneIs(w.mem.value.legs, w.plan, i + 1);
    RunLegsKeepsInv(w.(store := w.mem), i + 1, maxRetries);
  }

  lemma LandKeepsInv(w: Wager, maxRetries: nat)
    requires LateInv(w, maxRetries) && Enabled(w, Land)
    ensures LateInv(Step(w, Land, maxRetries), maxRetries)
  {
    hide ExactLegs;
    FirstUndoneIs(w.mem.value.legs, w.plan, w.at.leg);
  }

  lemma ThrowKeepsInv(w: Wager, e: Event, maxRetries: nat)
    requires LateInv(w, maxRetries) && Enabled(w, e) && (e.Throw? || e.LandThenThrow?)
    ensures LateInv(Step(w, e, maxRetries), maxRetries)
  {
    hide ExactLegs;
    FirstUndoneIs(w.mem.value.legs, w.plan, w.at.leg);
  }

  lemma MarkDoneKeepsInv(w: Wager, maxRetries: nat)
    requires LateInv(w, maxRetries) && Enabled(w, MarkDone)
    ensures LateInv(Step(w, MarkDone, maxRetries), maxRetries)
  {
    hide ExactLegs;
    var i := w.at.leg;
    FirstUndoneIs(w.mem.value.legs, w.plan, i);
    FirstUndoneIs(Step(w, MarkDone, maxRetries).mem.value.legs, w.plan, i + 1);
  }

  lemma CrashKeepsInv(w: Wager, maxRetries: nat)
    requires LateInv(w, maxRetries)
    ensures LateInv(Step(w, Crash, maxRetries), maxRetries)
  {
    hide ExactLegs;
    if w.store.Some? && !w.store.value.status.Active? {
      SettlingCrashKeepsInv(w, maxRetries);
    }
  }

  lemma SettlingCrashKeepsInv(w: Wager, maxRetries: nat)
    requires LateInv(w, maxRetries) && w.store.Some? && !w.store.value.status.Active?
    ensures LateInv(Step(w, Crash, maxRetries), maxRetries)
  {
    hide ExactLegs;
    if w.at.Landed? || w.at.Marked? {
      WindowCrashKeepsInv(w, maxRetries);
    } else if w.at.Calling? {
      FirstUndoneIs(w.store.value.legs, w.plan, w.at.leg);
    } else if w.at.Removing? {
      FirstUndoneIs(w.store.value.legs, w.plan, |w.plan|);
    }
  }

  lemma WindowCrashKeepsInv(w: Wager, maxRetries: nat)
    requires LateInv(w, maxRetries) && (w.at.Landed? || w.at.Marked?)
    ensures LateInv(Step(w, Crash, maxRetries), maxRetries)
  {
    hide ExactLegs;
    FirstUndoneIs(w.store.value.legs, w.plan, w.at.leg);
  }

  lemma LoadKeepsInv(w: Wager, maxRetries: nat)
    requires LateInv(w, maxRetries) && Enabled(w, Load)
    ensures LateInv(Step(w, Load, maxRetries), maxRetries)
  {
    hide ExactLegs;
    match w.store.value.status
    case Failed =>
    case Active =>
      ForfeitAndRefundAreExact(EntryOf(w));
      PlansKeepsInv(w, w.store.value, BuildLegs(RefundPlan(EntryOf(w))), maxRetries);
    case Settling =>
      RunLegsKeepsInv(w.(mem := w.store), FirstUndone(w.store.value.legs), maxRetries);
  }

  lemma SettleKeepsInv(w: Wager, plan: Plan, maxRetries: nat)
    requires LateInv(w, maxRetries) && Enabled(w, Settle(plan))
    ensures LateInv(Step(w, Settle(plan), maxRetries), maxRetries)
  {
    hide ExactLegs;
    PlansKeepsInv(w, if w.mem.Some? then w.mem.value else Record(w.wallet, w.amount, Active, [], 0),
                  BuildLegs(plan), maxRetries);
  }

  lemma LateStepKeepsInv(w: Wager, e: Event, maxRetries: nat)
    requires LateInv(w, maxRetries) && Enabled(w, e) && !(e.Sweep? && w.at.Planning?)
    ensures LateInv(Step(w, e, maxRetries), maxRetries)
  {
    match e
    case Book =>
    case Settle(plan) =>
      hide LateInv, Step;
      SettleKeepsInv(w, plan, maxRetries);
    case Sweep => RunLegsKeepsInv(w, FirstUndone(w.mem.value.legs), maxRetries);
    case Put => PutKeepsInv(w, maxRetries);
    case Land => LandKeepsInv(w, maxRetries);
    case Throw => ThrowKeepsInv(w, e, maxRetries);
    case LandThenThrow => ThrowKeepsInv(w, e, maxRetries);
    case MarkDone => MarkDoneKeepsInv(w, maxRetries);
    case Crash => CrashKeepsInv(w, maxRetries);
    case Load => LoadKeepsInv(w, maxRetries);
  }

  // ----- Runs that are ahead of their plan's put -----

  /** A sweep that gets ahead of the put makes the call that the put would have led to. */
  lemma SweepGetsAhead(w: Wager, maxRetries: nat)
    requires LateInv(w, maxRetries) && w.at.Planning? && Enabled(w, Sweep)
    ensures var w' := Step(w, Sweep, maxRetries); w'.early && Ahead(w') && AsStored(w') == Step(w, Put, maxRetries)
  {
    hide CallsBounded;
    FirstUndoneIs(w.mem.value.legs, w.plan, 0);
    assert w.mem.value.legs == w.plan;
    assert w.mem.value == PlannedRecord(w);
  }

  /** The chain's answers and the marking do not care whether the plan has been stored yet. */
  lemma AheadFollows(w: Wager, e: Event, maxRetries: nat)
    requires w.early && Ahead(w) && Enabled(w, e) && !e.Crash? && !e.Put?
    ensures e.Land? || e.Throw? || e.LandThenThrow? || e.MarkDone?
    ensures var w' := Step(w, e, maxRetries);
            w'.early && Ahead(w') && Enabled(AsStored(w), e) && AsStored(w') == Step(AsStored(w), e, maxRetries)
  {
  }

  /** The put catches up. */
  lemma PutCatchesUp(w: Wager, maxRetries: nat)
    requires w.early && Ahead(w)
    ensures Enabled(w, Put) && Step(w, Put, maxRetries) == AsStored(w)
  {
  }

  lemma EarlyCrashKeepsInv(w: Wager, maxRetries: nat)
    requires w.early && Inv(w, maxRetries)
    ensures LateInv(Step(w, Crash, maxRetries), maxRetries)
  {
    hide Counted, Shape, CallsBounded;
    LegsArePositive(w);
    LostBeforeStored(w, maxRetries);
  }

  lemma LegsArePositive(w: Wager)
    requires w.plan != [] && ExactLegs(w.plan, w.amount)
    ensures w.plan[0].amount > 0.0
  {
  }

  lemma LostBeforeStored(w: Wager, maxRetries: nat)
    requires w.early && Ahead(w) && w.amount > 0.0
    ensures var w' := Step(w, Crash, maxRetries); Shape(w', maxRetries) && Counted(w') && CallsBounded(w', maxRetries)
  {
  }

  /** Every step of a wager keeps the invariant. */
  lemma StepKeepsInv(w: Wager, e: Event, maxRetries: nat)
    requires Inv(w, maxRetries) && Enabled(w, e)
    ensures Inv(Step(w, e, maxRetries), maxRetries)
  {
    hide LateInv, Step, Enabled, Ahead;
    if w.early {
      if e.Crash? {
        EarlyCrashKeepsInv(w, maxRetries);
        NeverEarly(Step(w, e, maxRetries), maxRetries);
      } else if e.Put? {
        PutCatchesUp(w, maxRetries);
        NeverEarly(AsStored(w), maxRetries);
      } else {
        AheadFollows(w, e, maxRetries);
        LateStepKeepsInv(AsStored(w), e, maxRetries) by { NotSweeping(w, e); }
      }
    } else if e.Sweep? && w.at.Planning? {
      SweepGetsAhead(w, maxRetries);
      LateStepKeepsInv(w, Put, maxRetries) by { SweepHasPut(w); }
    } else {
      LateStepKeepsInv(w, e, maxRetries);
      NeverEarly(Step(w, e, maxRetries), maxRetries);
    }
  }

  lemma NeverEarly(w: Wager, maxRetries: nat)
    requires LateInv(w, maxRetries)
    ensures !w.early && Inv(w, maxRetries)
  {
    hide Shape, Counted, CallsBounded, ExactLegs;
  }

  lemma NotSweeping(w: Wager, e: Event)
    requires Ahead(w)
    ensures !(e.Sweep? && AsStored(w).at.Planning?)
  {
  }

  lemma SweepHasPut(w: Wager)
    requires w.at.Planning? && Enabled(w, Sweep)
    ensures Enabled(w, Put)
  {
  }

  // ----- Whole runs -----

  lemma {:induction false} RunKeepsInv(w: Wager, events: seq<Event>, maxRetries: nat)
    requires Inv(w, maxRetries)
    requires Run(w, events, maxRetries).Some?
    ensures Inv(Run(w, events, maxRetries).value, maxRetries)
  {
    if events != [] {
      var before := events[..|events| - 1];
      RunKeepsInv(w, before, maxRetries);
      StepKeepsInv(Run(w, before, maxRetries).value, events[|events| - 1], maxRetries);
    }
  }

  /** A confirmation is lost when a crash cuts it off from its put, or the call lands but reports failure. */
  predicate LosesConfirmation(w: Wager, e: Event) {
    e.LandThenThrow? || (e.Crash? && (w.at.Landed? || w.at.Marked?))
  }

  /** A run in which no confirmation is lost. */
  predicate Undisturbed(w: Wager, events: seq<Event>, maxRetries: nat)
    requires Run(w, events, maxRetries).Some?
  {
    events == []
    || (var before := events[..|events| - 1];
        && !LosesConfirmation(Run(w, before, maxRetries).value, events[|events| - 1])
        && Undisturbed(w, before, maxRetries))
  }

  lemma StepLosesNothing(w: Wager, e: Event, maxRetries: nat)
    requires Inv(w, maxRetries) && Enabled(w, e) && !LosesConfirmation(w, e) && AllZero(w.lost)
    ensures AllZero(Step(w, e, maxRetries).lost)
  {
    hide ExactLegs, Progress, Counted, CallsBounded, Bump;
  }

  /** What a leg has moved under a plan that is not stored yet. */
  predicate MovedUnstored(w: Wager) {
    w.early && w.landed != [] && w.landed[0] > 0
  }

  /**
   * A plan is forgotten with tokens moved under it exactly when a sweep has got ahead of the plan's put,
   * its first leg has landed, and the process dies before the put completes.
   */
  lemma StraysExactlyWhen(w: Wager, e: Event, maxRetries: nat)
    requires Inv(w, maxRetries) && Enabled(w, e)
    ensures Step(w, e, maxRetries).strayed == w.strayed + (if e.Crash? && MovedUnstored(w) then w.plan[0].amount else 0.0)
    ensures MovedUnstored(w) ==> w.plan[0].amount > 0.0
  {
    hide CallsBounded, Progress, Bump;
    if MovedUnstored(w) {
      LegsArePositive(w);
    }
  }

  /** Without lost confirmations nothing is moved unstored when the process dies. */
  lemma StepStraysNothing(w: Wager, e: Event, maxRetries: nat)
    requires Inv(w, maxRetries) && Enabled(w, e) && !LosesConfirmation(w, e) && AllZero(w.lost)
    ensures Step(w, e, maxRetries).strayed == w.strayed
  {
    StraysExactlyWhen(w, e, maxRetries);
    if e.Crash? && w.early {
      ErringMovedNothing(w, maxRetries);
    }
  }

  lemma ErringMovedNothing(w: Wager, maxRetries: nat)
    requires w.early && Inv(w, maxRetries) && (w.at.Calling? || w.at.Erring?) && AllZero(w.lost)
    ensures !MovedUnstored(w)
  {
    hide CallsBounded;
    FirstUndoneIs(AsStored(w).store.value.legs, w.plan, 0);
  }

  lemma {:induction false} UndisturbedLosesNothing(w: Wager, events: seq<Event>, maxRetries: nat)
    requires Inv(w, maxRetries) && Run(w, events, maxRetries).Some? && Undisturbed(w, events, maxRetries)
    requires AllZero(w.lost)
    ensures AllZero(Run(w, events, maxRetries).value.lost)
    ensures Run(w, events, maxRetries).value.strayed == w.strayed
  {
    hide Inv, Step, Enabled, AllZero, LosesConfirmation;
    if events != [] {
      var before := events[..|events| - 1];
      UndisturbedLosesNothing(w, before, maxRetries);
      RunKeepsInv(w, before, maxRetries);
      StepLosesNothing(Run(w, before, maxRetries).value, events[|events| - 1], maxRetries);
      StepStraysNothing(Run(w, before, maxRetries).value, events[|events| - 1], maxRetries);
    }
  }

  /** Every leg landed at most once beyond its lost confirmations, exactly so once the record is dropped. */
  ghost predicate PaidOnce(w: Wager) {
    && |w.landed| == |w.lost| == |w.plan|
    && forall i :: 0 <= i < |w.plan| ==>
         w.landed[i] <= 1 + w.lost[i] && (w.at.Over? ==> w.landed[i] == 1 + w.lost[i])
  }

  lemma LandingsAccounted(w: Wager, maxRetries: nat)
    requires Inv(w, maxRetries)
    ensures PaidOnce(w)
  {
    hide ExactLegs, Progress;
    var stored := AsStored(w);
    if w.at.Landed? || w.at.Marked? {
      FirstUndoneIs(stored.store.value.legs, w.plan, w.at.leg);
    }
    assert PaidOnce(stored);
  }

  /**
   * Crash-safe payment, over every run of booking, settling, sweeping, crashing and rebooting:
   * a leg of the plan in force moves tokens at most once plus the confirmations of it that were
   * lost, and exactly once in an undisturbed run that has dropped the record; no earlier plan of
   * an undisturbed run has moved anything.
   */
  lemma PaidAtMostOnce(id: WagerId, wallet: Wallet, amount: real, events: seq<Event>, maxRetries: nat)
    requires amount > 0.0 && Run(Deposited(id, wallet, amount), events, maxRetries).Some?
    ensures var w := Run(Deposited(id, wallet, amount), events, maxRetries).value;
            && PaidOnce(w)
            && (Undisturbed(Deposited(id, wallet, amount), events, maxRetries) ==> AllZero(w.lost) && w.strayed == 0.0)
  {
    hide Run, Undisturbed, PaidOnce, AllZero;
    var w0 := Deposited(id, wallet, amount);
    RunKeepsInv(w0, events, maxRetries);
    LandingsAccounted(Run(w0, events, maxRetries).value, maxRetries);
    if Undisturbed(w0, events, maxRetries) {
      NothingLostYet(w0);
      UndisturbedLosesNothing(w0, events, maxRetries);
    }
  }

  lemma NothingLostYet(w: Wager)
    requires w.lost == []
    ensures AllZero(w.lost)
  {
  }

  // ----- How many tokens a wager moves -----

  /** The tokens moved when each leg has landed so often. */
  function MovedBy(plan: seq<Leg>, counts: seq<nat>): real {
    if plan == [] || |counts| != |plan| then 0.0
    else
      var n := |plan| - 1;
      MovedBy(plan[..n], counts[..n]) + Times(plan[n].amount, counts[n])
  }

  lemma {:induction false} MovedBump(plan: seq<Leg>, counts: seq<nat>, i: nat)
    requires |counts| == |plan| && i < |plan|
    ensures MovedBy(plan, Bump(counts, i)) == MovedBy(plan, counts) + plan[i].amount
  {
    var n := |plan| - 1;
    if i < n {
      MovedBump(plan[..n], counts[..n], i);
      assert Bump(counts, i)[..n] == Bump(counts[..n], i);
    } else {
      assert Bump(counts, i)[..n] == counts[..n];
    }
  }

  lemma {:induction false} MovedNothing(plan: seq<Leg>, counts: seq<nat>)
    requires AllZero(counts)
    ensures MovedBy(plan, counts) == 0.0
  {
    if plan != [] && |counts| == |plan| {
      MovedNothing(plan[..|plan| - 1], counts[..|plan| - 1]);
    }
  }

  lemma {:induction false} MovedFirstOnly(plan: seq<Leg>, counts: seq<nat>)
    requires |counts| == |plan| > 0 && counts[0] == 1 && forall i :: 0 < i < |counts| ==> counts[i] == 0
    ensures MovedBy(plan, counts) == plan[0].amount
  {
    var n := |plan| - 1;
    if n == 0 {
      assert plan[..0] == [];
      assert Times(plan[0].amount, 1) == Times(plan[0].amount, 0) + plan[0].amount;
    } else {
      MovedFirstOnly(plan[..n], counts[..n]);
    }
  }

  /** Legs that land at most once beyond some counts move at most their sum beyond what those counts move. */
  lemma {:induction false} MovedWithin(plan: seq<Leg>, landed: seq<nat>, lost: seq<nat>)
    requires |landed| == |lost| == |plan| && forall i :: 0 <= i < |plan| ==> plan[i].amount > 0.0 && landed[i] <= 1 + lost[i]
    ensures MovedBy(plan, landed) <= SumLegs(plan) + MovedBy(plan, lost)
    ensures (forall i :: 0 <= i < |plan| ==> landed[i] == 1 + lost[i]) ==>
              MovedBy(plan, landed) == SumLegs(plan) + MovedBy(plan, lost)
  {
    if plan != [] {
      var n := |plan| - 1;
      MovedWithin(plan[..n], landed[..n], lost[..n]);
      TimesMonotone(plan[n].amount, landed[n], 1 + lost[n]);
    }
  }

  lemma {:induction false} TimesMonotone(x: real, m: nat, n: nat)
    requires x >= 0.0 && m <= n
    ensures Times(x, m) <= Times(x, n)
    decreases n
  {
    if m < n {
      TimesMonotone(x, m, n - 1);
    }
  }

  /** Every token moved is accounted to the plan in force or to one that a crash kept out of the store. */
  predicate MovesAccounted(w: Wager) {
    w.moved == w.strayed + MovedBy(w.plan, w.landed)
  }

  /** No plan is dropped or replaced with tokens moved under it, but for those that stray. */
  lemma DroppedPlansMoved(w: Wager, maxRetries: nat)
    requires Inv(w, maxRetries)
    ensures !w.at.Over? && (w.store.None? || w.store.value.status.Active?) ==>
              Strayed(w) == w.strayed + MovedBy(w.plan, w.landed)
    ensures w.mem.Some? && w.mem.value.status.Active? ==> MovedBy(w.plan, w.landed) == 0.0
  {
    hide ExactLegs, Progress, CallsBounded;
    if w.early {
      if w.landed[0] == 1 {
        MovedFirstOnly(w.plan, w.landed);
      } else {
        MovedNothing(w.plan, w.landed);
      }
    } else if w.at.Planning? {
      MovedNothing(w.plan, w.landed);
    }
  }

  lemma StepAccountsMoves(w: Wager, e: Event, maxRetries: nat)
    requires Inv(w, maxRetries) && Enabled(w, e) && MovesAccounted(w)
    ensures MovesAccounted(Step(w, e, maxRetries))
  {
    if e.Land? || e.LandThenThrow? {
      LandingMoves(w, e, maxRetries);
    } else if e.Crash? {
      CrashAccountsMoves(w, maxRetries);
    } else if e.Settle? || e.Load? {
      PlanningMovesNothing(w, e, maxRetries);
    } else {
      hide Inv, MovedBy, FirstUndone;
    }
  }

  lemma LandingMoves(w: Wager, e: Event, maxRetries: nat)
    requires Inv(w, maxRetries) && MovesAccounted(w) && w.at.Calling? && (e.Land? || e.LandThenThrow?) && Enabled(w, e)
    ensures MovesAccounted(Step(w, e, maxRetries))
  {
    hide ExactLegs, Progress, CallsBounded, MovedBy;
    MovedBump(w.plan, w.landed, w.at.leg);
  }

  lemma CrashAccountsMoves(w: Wager, maxRetries: nat)
    requires Inv(w, maxRetries) && MovesAccounted(w)
    ensures MovesAccounted(Step(w, Crash, maxRetries))
  {
    DroppedPlansMoved(w, maxRetries);
    hide Inv, Strayed;
  }

  lemma PlanningMovesNothing(w: Wager, e: Event, maxRetries: nat)
    requires Inv(w, maxRetries) && MovesAccounted(w) && (e.Settle? || e.Load?) && Enabled(w, e)
    ensures MovesAccounted(Step(w, e, maxRetries))
  {
    hide ExactLegs, Progress, CallsBounded, BuildLegs, MovedBy;
    MovedNothing(w.plan, []);
    var w' := Step(w, e, maxRetries);
    if w'.at.Planning? {
      MovedNothing(w'.plan, w'.landed);
      NoLegsMove(w);
    }
  }

  lemma NoLegsMove(w: Wager)
    ensures w.plan == [] ==> MovedBy(w.plan, w.landed) == 0.0
  {
  }

  lemma {:induction false} RunAccountsMoves(w: Wager, events: seq<Event>, maxRetries: nat)
    requires Inv(w, maxRetries) && MovesAccounted(w) && Run(w, events, maxRetries).Some?
    ensures MovesAccounted(Run(w, events, maxRetries).value)
  {
    if events != [] {
      hide Inv, Step, Enabled, MovesAccounted;
      var before := events[..|events| - 1];
      RunAccountsMoves(w, before, maxRetries);
      RunKeepsInv(w, before, maxRetries);
      StepAccountsMoves(Run(w, before, maxRetries).value, events[|events| - 1], maxRetries);
    }
  }

  /** A wager moves at most its deposit beyond what lost confirmations and forgotten plans moved. */
  ghost predicate MovesBounded(w: Wager) {
    && w.moved <= w.amount + MovedBy(w.plan, w.lost) + w.strayed
    && (w.at.Over? && w.plan != [] ==> w.moved == w.amount + MovedBy(w.plan, w.lost) + w.strayed)
  }

  lemma AccountedIsBounded(w: Wager, maxRetries: nat)
    requires Inv(w, maxRetries) && MovesAccounted(w)
    ensures MovesBounded(w)
  {
    LandingsAccounted(w, maxRetries);
    hide Shape, Counted, CallsBounded, MovedBy;
    if w.plan == [] {
      NoLegsMove(w);
      NoLegsMove(w.(landed := w.lost));
    } else {
      MovedWithin(w.plan, w.landed, w.lost);
    }
  }

  /**
   * Over every run the tokens moved for a wager are at most its deposit, plus what legs moved whose confirmations
   * were lost, plus what a forgotten plan had moved, and exactly that once its record is dropped as paid.
   */
  lemma TokensMoved(id: WagerId, wallet: Wallet, amount: real, events: seq<Event>, maxRetries: nat)
    requires amount > 0.0 && Run(Deposited(id, wallet, amount), events, maxRetries).Some?
    ensures MovesBounded(Run(Deposited(id, wallet, amount), events, maxRetries).value)
  {
    hide Run, MovesBounded, MovedBy;
    var w0 := Deposited(id, wallet, amount);
    NoLegsMove(w0);
    RunKeepsInv(w0, events, maxRetries);
    RunAccountsMoves(w0, events, maxRetries);
    AccountedIsBounded(Run(w0, events, maxRetries).value, maxRetries);
  }

  lemma OneMoreEvent(w0: Wager, events: seq<Event>, w: Wager, e: Event, maxRetries: nat)
    requires Run(w0, events, maxRetries) == Some(w) && Enabled(w, e)
    ensures Run(w0, events + [e], maxRetries) == Some(Step(w, e, maxRetries))
  {
    hide Step, Enabled;
    assert (events + [e])[..|events|] == events;
  }

  function SoleLeg(wallet: Wallet, amount: real): seq<Leg> {
    [Leg(Return, wallet, amount, false)]
  }

  /** A booked wager whose refund a sweep has started before the plan was stored. */
  function Overtaken(id: WagerId, wallet: Wallet, amount: real): Wager {
    Deposited(id, wallet, amount).(
      mem := Some(Record(wallet, amount, Settling, SoleLeg(wallet, amount), 0)),
      store := Some(Record(wallet, amount, Active, [], 0)),
      at := Calling(0), early := true, plan := SoleLeg(wallet, amount), landed := [0], lost := [0], calls := 1)
  }

  lemma SweepOvertakes(id: WagerId, wallet: Wallet, amount: real, maxRetries: nat) returns (events: seq<Event>)
    requires amount > 0.0
    ensures Run(Deposited(id, wallet, amount), events, maxRetries) == Some(Overtaken(id, wallet, amount))
  {
    hide Run;
    var w0 := Deposited(id, wallet, amount);
    var refund := Settle(RefundPlan(WagerEntry(id, wallet, amount)));
    ForfeitAndRefundAreExact(WagerEntry(id, wallet, amount));
    assert Run(w0, [], maxRetries) == Some(w0) by { RunOfNothing(w0, maxRetries); }
    var w1 := Step(w0, Book, maxRetries);
    OneMoreEvent(w0, [], w0, Book, maxRetries);
    var w2 := Step(w1, Put, maxRetries);
    OneMoreEvent(w0, [] + [Book], w1, Put, maxRetries);
    var w3 := Step(w2, refund, maxRetries);
    OneMoreEvent(w0, [] + [Book] + [Put], w2, refund, maxRetries);
    OneMoreEvent(w0, [] + [Book] + [Put] + [refund], w3, Sweep, maxRetries);
    events := [] + [Book] + [Put] + [refund] + [Sweep];
    assert Zeros(1) == [0];
    assert Step(w3, Sweep, maxRetries) == Overtaken(id, wallet, amount);
  }

  lemma RunOfNothing(w: Wager, maxRetries: nat)
    ensures Run(w, [], maxRetries) == Some(w)
  {
  }

  /** The refund has landed, the process has died and come back, and the wager is about to be refunded again. */
  function AboutToRepay(id: WagerId, wallet: Wallet, amount: real): Wager {
    var record := Some(Record(wallet, amount, Settling, SoleLeg(wallet, amount), 0));
    Deposited(id, wallet, amount).(mem := record, store := record, at := Calling(0), plan := SoleLeg(wallet, amount),
                                   landed := [0], lost := [0], calls := 1, moved := amount, strayed := amount)
  }

  lemma RefundIsForgotten(id: WagerId, wallet: Wallet, amount: real, events: seq<Event>, maxRetries: nat)
    returns (longer: seq<Event>)
    requires amount > 0.0 && Run(Deposited(id, wallet, amount), events, maxRetries) == Some(Overtaken(id, wallet, amount))
    ensures Run(Deposited(id, wallet, amount), longer, maxRetries) == Some(AboutToRepay(id, wallet, amount))
  {
    hide Run;
    var w0, w1 := Deposited(id, wallet, amount), Overtaken(id, wallet, amount);
    OneMoreEvent(w0, events, w1, Land, maxRetries);
    var w2 := Step(w1, Land, maxRetries);
    OneMoreEvent(w0, events + [Land], w2, Crash, maxRetries);
    var w3 := Step(w2, Crash, maxRetries);
    ForfeitAndRefundAreExact(WagerEntry(id, wallet, amount));
    OneMoreEvent(w0, events + [Land] + [Crash], w3, Load, maxRetries);
    var w4 := Step(w3, Load, maxRetries);
    OneMoreEvent(w0, events + [Land] + [Crash] + [Load], w4, Put, maxRetries);
    longer := events + [Land] + [Crash] + [Load] + [Put];
    assert Zeros(1) == [0];
    assert Step(w4, Put, maxRetries) == AboutToRepay(id, wallet, amount);
  }

  /** That window is real: a sweep overtakes the put of a refund, the refund lands, the process dies, and boot refunds again. */
  lemma OvertakenPutPaysTwice(id: WagerId, wallet: Wallet, amount: real, maxRetries: nat) returns (events: seq<Event>)
    requires amount > 0.0
    ensures Run(Deposited(id, wallet, amount), events, maxRetries).Some?
    ensures var w := Run(Deposited(id, wallet, amount), events, maxRetries).value;
            w.at.Over? && w.moved == amount + amount && w.strayed == amount && w.plan == SoleLeg(wallet, amount) && w.landed == [1]
  {
    hide Run;
    var w0, w1 := Deposited(id, wallet, amount), AboutToRepay(id, wallet, amount);
    events := SweepOvertakes(id, wallet, amount, maxRetries);
    events := RefundIsForgotten(id, wallet, amount, events, maxRetries);
    OneMoreEvent(w0, events, w1, Land, maxRetries);
    var w2 := Step(w1, Land, maxRetries);
    OneMoreEvent(w0, events + [Land], w2, MarkDone, maxRetries);
    var w3 := Step(w2, MarkDone, maxRetries);
    OneMoreEvent(w0, events + [Land] + [MarkDone], w3, Put, maxRetries);
    var w4 := Step(w3, Put, maxRetries);
    OneMoreEvent(w0, events + [Land] + [MarkDone] + [Put], w4, Put, maxRetries);
    events := events + [Land] + [MarkDone] + [Put] + [Put];
  }

  /**
   * A liability that has reached the store leaves it only when every leg has landed; before
   * that, no crash and no failure removes it.
   */
  lemma DroppedOnlyWhenPaid(w: Wager, e: Event, maxRetries: nat)
    requires Inv(w, maxRetries) && Enabled(w, e) && w.store.Some?
    requires Step(w, e, maxRetries).store.None?
    ensures w.plan != [] && SumLegs(w.plan) == w.amount
    ensures forall i :: 0 <= i < |w.plan| ==> w.landed[i] >= 1
  {
    hide CallsBounded;
    FirstUndoneIs(w.store.value.legs, w.plan, |w.plan|);
  }

  /** Done flags are a prefix of the plan, in memory and in the store, and memory is at most one ahead. */
  lemma DoneFlagsArePrefix(w: Wager, maxRetries: nat)
    requires Inv(w, maxRetries)
    ensures w.mem.Some? && !w.mem.value.status.Active? ==>
              Progress(w.mem.value.legs, w.plan, FirstUndone(w.mem.value.legs))
    ensures w.store.Some? && !w.store.value.status.Active? ==>
              Progress(w.store.value.legs, w.plan, FirstUndone(w.store.value.legs))
    ensures w.mem.Some? && w.store.Some? && !w.mem.value.status.Active? && !w.store.value.status.Active? ==>
              0 <= FirstUndone(w.mem.value.legs) - FirstUndone(w.store.value.legs) <= 1
  {
    if w.mem.Some? && !w.mem.value.status.Active? {
      MemoryProgress(AsStored(w), maxRetries);
    }
    if w.at.Removing? {
      FirstUndoneIs(w.store.value.legs, w.plan, |w.plan|);
    }
  }

  lemma MemoryProgress(w: Wager, maxRetries: nat)
    requires LateInv(w, maxRetries) && w.mem.Some? && !w.mem.value.status.Active?
    ensures Progress(w.mem.value.legs, w.plan, FirstUndone(w.mem.value.legs))
    ensures w.store.Some? && !w.store.value.status.Active? ==>
              && Progress(w.store.value.legs, w.plan, FirstUndone(w.store.value.legs))
              && 0 <= FirstUndone(w.mem.value.legs) - FirstUndone(w.store.value.legs) <= 1
  {
    hide ExactLegs;
    match w.at
    case Planning => FirstUndoneIs(w.mem.value.legs, w.plan, 0);
    case Calling(i) => FirstUndoneIs(w.mem.value.legs, w.plan, i);
    case Landed(i) => FirstUndoneIs(w.mem.value.legs, w.plan, i);
    case Marked(i) =>
      FirstUndoneIs(w.store.value.legs, w.plan, i);
      FirstUndoneIs(w.mem.value.legs, w.plan, i + 1);
    case Erring => FirstUndoneIs(w.mem.value.legs, w.plan, FirstUndone(w.store.value.legs));
    case _ =>
  }

  /** When a leg has moved tokens, so has every leg before it: the burn comes after all payouts. */
  lemma LegsLandInOrder(w: Wager, i: nat, j: nat, maxRetries: nat)
    requires Inv(w, maxRetries) && j < i < |w.plan| && w.landed[i] > 0
    ensures w.landed[j] > 0
    ensures !w.plan[j].kind.Burn?
  {
    assert Before(w.plan[j], w.plan[i]);
  }

  // ----- Progress -----

  /** Work left before the wager is settled or parked, while the process stays up. */
  ghost function Rank(w: Wager, maxRetries: nat): int {
    LateRank(w, maxRetries) + if w.early then 1 else 0
  }

  ghost function LateRank(w: Wager, maxRetries: nat): int {
    if w.mem.None? then (if w.at.Removing? then 1 else 0)
    else
      var left := |w.plan| - FirstUndone(w.mem.value.legs) + Attempts(maxRetries) - w.mem.value.retries;
      match w.at
      case Planning => 6 * left + 5
      case Calling(_) => 6 * left + 3
      case Landed(_) => 6 * left + 2
      case Marked(_) => 6 * left + 5
      case Erring => 6 * left + 5
      case Idle => if w.mem.value.status.Failed? then 0 else 6 * left + 4
      case _ => 0
  }

  ghost predicate Planned(w: Wager) {
    w.plan != [] && !w.at.Down? && !w.at.Over?
  }

  ghost predicate Parked(w: Wager) {
    w.at.Idle? && w.mem.Some? && w.mem.value.status.Failed?
  }

  ghost predicate StepsDown(w: Wager, w': Wager, maxRetries: nat) {
    && 0 <= Rank(w', maxRetries) < Rank(w, maxRetries)
    && (Planned(w') || w'.at.Over?)
    && w'.plan == w.plan && w'.crashes == w.crashes
  }

  lemma RankDropsInLoop(w: Wager, n: nat, maxRetries: nat)
    requires !w.early && w.mem.Some? && w.plan != [] && SettlingRecord(w, w.mem.value, n, maxRetries)
    ensures var w' := RunLegs(w);
            && 0 <= Rank(w', maxRetries) <= 6 * (|w.plan| - n + Attempts(maxRetries) - w.mem.value.retries) + 3
            && Planned(w') && w'.plan == w.plan && w'.crashes == w.crashes
  {
    FirstUndoneIs(w.mem.value.legs, w.plan, n);
  }

  lemma RankDropsOnPut(w: Wager, maxRetries: nat)
    requires LateInv(w, maxRetries) && Planned(w) && Enabled(w, Put)
    ensures StepsDown(w, Step(w, Put, maxRetries), maxRetries)
  {
    hide ExactLegs, Counted, CallsBounded;
    if w.at.Planning? {
      FirstUndoneIs(w.mem.value.legs, w.plan, 0);
      RankDropsInLoop(w.(store := w.mem), 0, maxRetries);
    } else if w.at.Marked? {
      FirstUndoneIs(w.mem.value.legs, w.plan, w.at.leg + 1);
      RankDropsInLoop(w.(store := w.mem), w.at.leg + 1, maxRetries);
    } else if w.at.Erring? {
      FirstUndoneIs(w.mem.value.legs, w.plan, FirstUndone(w.store.value.legs));
    }
  }

  lemma RankDropsOnCall(w: Wager, e: Event, maxRetries: nat)
    requires LateInv(w, maxRetries) && Enabled(w, e) && (e.Land? || e.Throw? || e.LandThenThrow? || e.MarkDone?)
    ensures StepsDown(w, Step(w, e, maxRetries), maxRetries)
  {
    hide ExactLegs, Counted, CallsBounded;
    var w' := Step(w, e, maxRetries);
    FirstUndoneIs(w.mem.value.legs, w.plan, w.at.leg);
    if e.MarkDone? {
      FirstUndoneIs(w'.mem.value.legs, w.plan, w.at.leg + 1);
    }
  }

  lemma RankDrops(w: Wager, e: Event, maxRetries: nat)
    requires Inv(w, maxRetries) && Planned(w) && Enabled(w, e) && !e.Crash?
    ensures StepsDown(w, Step(w, e, maxRetries), maxRetries)
  {
    hide ExactLegs, Counted, CallsBounded;
    if w.early {
      EarlyRankDrops(w, e, maxRetries);
    } else if e.Put? {
      RankDropsOnPut(w, maxRetries);
    } else if e.Sweep? {
      RankDropsInLoop(w, FirstUndone(w.mem.value.legs), maxRetries);
      if w.at.Planning? {
        FirstUndoneIs(w.mem.value.legs, w.plan, 0);
      }
    } else {
      RankDropsOnCall(w, e, maxRetries);
    }
  }

  lemma EarlyRankDrops(w: Wager, e: Event, maxRetries: nat)
    requires w.early && Inv(w, maxRetries) && Enabled(w, e) && !e.Crash?
    ensures StepsDown(w, Step(w, e, maxRetries), maxRetries)
  {
    hide Step, Enabled, LateInv, LateRank;
    SameRank(w, maxRetries);
    if e.Put? {
      PutCatchesUp(w, maxRetries);
      RankNonNegative(AsStored(w), maxRetries);
    } else {
      AheadFollows(w, e, maxRetries);
      SameRank(Step(w, e, maxRetries), maxRetries);
      RankDropsOnCall(AsStored(w), e, maxRetries);
    }
  }

  lemma SameRank(w: Wager, maxRetries: nat)
    ensures LateRank(AsStored(w), maxRetries) == LateRank(w, maxRetries)
  {
  }

  lemma RankNonNegative(w: Wager, maxRetries: nat)
    requires LateInv(w, maxRetries)
    ensures Rank(w, maxRetries) >= 0
  {
    hide ExactLegs, Counted, CallsBounded;
    if w.mem.Some? && !w.mem.value.status.Active? {
      MemoryProgress(w, maxRetries);
    }
  }

  lemma NeverStuck(w: Wager, maxRetries: nat)
    requires Inv(w, maxRetries) && Planned(w) && !Parked(w)
    ensures exists e :: Enabled(w, e) && !e.Crash?
  {
    match w.at
    case Planning => assert Enabled(w, Put);
    case Calling(_) => assert Enabled(w, Throw);
    case Landed(_) => assert Enabled(w, MarkDone);
    case Marked(_) => assert Enabled(w, Put);
    case Erring => assert Enabled(w, Put);
    case Removing => assert Enabled(w, Put);
    case Idle => assert Enabled(w, Sweep);
  }

  lemma NothingAfterOver(w: Wager, e: Event, maxRetries: nat)
    requires Inv(w, maxRetries) && w.at.Over? && Enabled(w, e)
    ensures e.Crash?
  {
  }

  predicate CrashFree(events: seq<Event>) {
    forall i :: 0 <= i < |events| ==> !events[i].Crash?
  }

  /** A crash-free run from a plan is short, and one that cannot go on has settled or parked the wager. */
  lemma {:induction false} SettlesOrParks(w: Wager, events: seq<Event>, maxRetries: nat)
    requires Inv(w, maxRetries) && w.at.Planning? && CrashFree(events) && Run(w, events, maxRetries).Some?
    ensures var w' := Run(w, events, maxRetries).value;
            && |events| <= Rank(w, maxRetries) - Rank(w', maxRetries) && Rank(w', maxRetries) >= 0
            && w'.plan == w.plan && w'.crashes == 0
            && w'.calls <= |w.plan| + Attempts(maxRetries)
            && (Planned(w') || w'.at.Over?)
            && ((forall e :: Enabled(w', e) ==> e.Crash?) ==> w'.at.Over? || Parked(w'))
  {
    hide Step, Enabled, ExactLegs, Counted, Ahead;
    RunKeepsInv(w, events, maxRetries);
    var w' := Run(w, events, maxRetries).value;
    if events == [] {
      FirstUndoneIs(w.mem.value.legs, w.plan, 0);
    } else {
      var before := events[..|events| - 1];
      SettlesOrParks(w, before, maxRetries);
      RunKeepsInv(w, before, maxRetries);
      var last, e := Run(w, before, maxRetries).value, events[|events| - 1];
      if last.at.Over? {
        NothingAfterOver(last, e, maxRetries);
        assert false;
      }
      RankDrops(last, e, maxRetries);
    }
    if Planned(w') && !Parked(w') {
      NeverStuck(w', maxRetries);
    }
  }
}
