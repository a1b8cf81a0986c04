/**
 * The escrow wallet behind all wagers: balance arithmetic of transfers and burns, and the
 * question whether the balance always covers what is still owed.
 *
 * Raw token units are whole numbers kept in `real`; `unit` is 10^decimals. The escrow is a
 * dedicated wallet, so a recirculate leg is a real transfer.
 */
module EscrowTreasury {
  import opened Prelude
  import opened Settlement
  import opened Outbox

  // ----- Amounts -----

  /** `toRawAmount`. */
  function Raw(amount: real, unit: real): real {
    Floor(amount * unit)
  }

  lemma RawBounds(amount: real, unit: real)
    requires amount >= 0.0 && unit > 0.0
    ensures Raw(amount, unit) >= 0.0
  {
  }

  /** Raw units are whole and short of the amount by less than one. */
  lemma RawRoundsDown(amount: real, unit: real)
    ensures Raw(amount, unit) <= amount * unit < Raw(amount, unit) + 1.0
    ensures Floor(Raw(amount, unit)) == Raw(amount, unit)
  {
    WholeIsItsFloor((amount * unit).Floor);
  }

  lemma RawAdds(a: real, b: real, unit: real)
    ensures Raw(a, unit) + Raw(b, unit) <= Raw(a + b, unit)
  {
    assert (a + b) * unit == a * unit + b * unit;
    FloorOfParts(a * unit, b * unit);
  }

  /** Raw units of the legs from `n` on. */
  function UndoneRaw(plan: seq<Leg>, n: nat, unit: real): real
    decreases |plan| - n
  {
    if n >= |plan| then 0.0 else Raw(plan[n].amount, unit) + UndoneRaw(plan, n + 1, unit)
  }

  function LegsFrom(plan: seq<Leg>, n: nat): real
    decreases |plan| - n
  {
    if n >= |plan| then 0.0 else plan[n].amount + LegsFrom(plan, n + 1)
  }

  lemma {:induction false} UndoneRawFits(plan: seq<Leg>, n: nat, unit: real)
    requires unit > 0.0 && forall i :: 0 <= i < |plan| ==> plan[i].amount > 0.0
    ensures 0.0 <= UndoneRaw(plan, n, unit) <= Raw(LegsFrom(plan, n), unit)
    ensures 0.0 <= LegsFrom(plan, n)
    decreases |plan| - n
  {
    hide Raw;
    if n < |plan| {
      UndoneRawFits(plan, n + 1, unit);
      RawBounds(plan[n].amount, unit);
      RawAdds(plan[n].amount, LegsFrom(plan, n + 1), unit);
    } else {
      RawBounds(0.0, unit);
    }
  }

  lemma {:induction false} SumLegsFrom(plan: seq<Leg>, n: nat)
    requires n <= |plan|
    ensures SumLegs(plan[..n]) + LegsFrom(plan, n) == SumLegs(plan)
    decreases |plan| - n
  {
    if n < |plan| {
      SumLegsFrom(plan, n + 1);
      assert plan[..n + 1][..n] == plan[..n];
    } else {
      assert plan[..n] == plan;
    }
  }

  /** Flooring each leg never asks for more than flooring the wager. */
  lemma LegsFitInDeposit(plan: seq<Leg>, amount: real, unit: real)
    requires unit > 0.0 && ExactLegs(plan, amount)
    ensures UndoneRaw(plan, 0, unit) <= Raw(amount, unit)
  {
    hide Raw, UndoneRaw, LegsFrom;
    UndoneRawFits(plan, 0, unit);
    SumLegsFrom(plan, 0);
    assert plan[..0] == [];
  }

  lemma {:induction false} UndoneRawShrinks(plan: seq<Leg>, n: nat, unit: real)
    requires unit > 0.0 && n <= |plan| && forall i :: 0 <= i < |plan| ==> plan[i].amount > 0.0
    ensures UndoneRaw(plan, n, unit) <= UndoneRaw(plan, 0, unit)
  {
    hide Raw;
    if n > 0 {
      UndoneRawShrinks(plan, n - 1, unit);
      RawBounds(plan[n - 1].amount, unit);
    }
  }

  // ----- What is owed, and what the manager reports as owed -----

  function OwedByRecord(w: Wager, r: Record, unit: real): real {
    match r.status
    case Active => Raw(w.amount, unit)
    case Settling => UndoneRaw(w.plan, FirstUndone(r.legs), unit)
    case Failed => 0.0
  }

  /**
   * Raw units the escrow must still hold for a wager; a parked wager is left to manual handling. Until
   * its plan is stored the wager could still be refunded whole, so nothing is saved by flooring its legs.
   */
  function Owed(w: Wager, unit: real): real {
    OwedOncePlanned(w, unit) + Unstored(w, unit)
  }

  function Unstored(w: Wager, unit: real): real {
    if w.early && w.mem.Some? && !w.mem.value.status.Failed? then Raw(w.amount, unit) - UndoneRaw(w.plan, 0, unit) else 0.0
  }

  function OwedOncePlanned(w: Wager, unit: real): real {
    match w.at
    case Unbooked => Raw(w.amount, unit)
    case Booking => Raw(w.amount, unit)
    case Planning => Raw(w.amount, unit)
    case Calling(i) => UndoneRaw(w.plan, i, unit)
    case Landed(i) => UndoneRaw(w.plan, i + 1, unit)
    case Marked(i) => UndoneRaw(w.plan, i + 1, unit)
    case Removing => 0.0
    case Over => 0.0
    case Idle => if w.mem.Some? then OwedByRecord(w, w.mem.value, unit) else 0.0
    case Erring => if w.mem.Some? then OwedByRecord(w, w.mem.value, unit) else 0.0
    case Down => if w.store.Some? then OwedByRecord(w, w.store.value, unit) else 0.0
  }

  /** A wager's share of `outstandingLiability`: its record's, if it is in memory. */
  function LiabilityOf(w: Wager): real {
    if w.mem.Some? then Liability(w.mem.value) else 0.0
  }

  ghost function OwedMap(wagers: map<WagerId, Wager>, unit: real): map<WagerId, real> {
    map id | id in wagers :: Owed(wagers[id], unit)
  }

  ghost function TotalOwed(wagers: map<WagerId, Wager>, unit: real): real {
    Total(OwedMap(wagers, unit))
  }

  ghost function LiabilityMap(wagers: map<WagerId, Wager>): map<WagerId, real> {
    map id | id in wagers :: LiabilityOf(wagers[id])
  }

  ghost function OutstandingLiability(wagers: map<WagerId, Wager>): real {
    Total(LiabilityMap(wagers))
  }

  /** That total is the one the manager computes over its records. */
  lemma LiabilityIsOverRecords(wagers: map<WagerId, Wager>, records: map<WagerId, Record>)
    requires forall id :: id in records <==> id in wagers && wagers[id].mem.Some?
    requires forall id :: id in records ==> records[id] == wagers[id].mem.value
    ensures Total(Liabilities(records)) == OutstandingLiability(wagers)
  {
    hide Liability;
    var all, gone := LiabilityMap(wagers), set id | id in wagers && wagers[id].mem.None?;
    TotalIgnoresZeros(all, gone);
    assert all - gone == Liabilities(records);
  }

  /** Every recorded wager is in memory, and no verified deposit is waiting to be recorded. */
  ghost predicate AllLoaded(wagers: map<WagerId, Wager>) {
    forall id :: id in wagers ==> !wagers[id].at.Down? && !wagers[id].at.Unbooked?
  }

  /** What a wager owes while its legs are run ahead of its plan's put. */
  lemma EarlyOwed(w: Wager, unit: real, maxRetries: nat)
    requires unit > 0.0 && w.early && Inv(w, maxRetries)
    ensures w.mem.Some? && w.mem.value.amount == w.amount && |w.plan| > 0
    ensures w.at.Calling? || w.at.Landed? || w.at.Marked? || w.at.Erring?
    ensures w.at.Calling? || w.at.Erring? ==> Owed(w, unit) == if w.mem.value.status.Failed? then 0.0 else Raw(w.amount, unit)
    ensures w.at.Landed? || w.at.Marked? ==> Owed(w, unit) == Raw(w.amount, unit) - Raw(w.plan[0].amount, unit) >= 0.0
    ensures !w.at.Erring? ==> w.at.leg == 0 && !w.mem.value.status.Failed?
  {
    hide Raw, Counted, CallsBounded;
    FirstUndoneIs(PlannedRecord(w).legs, w.plan, 0);
    if w.at.Erring? {
      FirstUndoneIs(w.mem.value.legs, w.plan, 0);
    }
    OwedOfPlan(w, unit);
    assert UndoneRaw(w.plan, 0, unit) == Raw(w.plan[0].amount, unit) + UndoneRaw(w.plan, 1, unit);
  }

  lemma OwedWithinLiability(w: Wager, unit: real, maxRetries: nat)
    requires unit > 0.0 && Inv(w, maxRetries) && !w.at.Down? && !w.at.Unbooked?
    ensures 0.0 <= Owed(w, unit) <= Raw(LiabilityOf(w), unit)
  {
    if w.early {
      EarlyWithinLiability(w, unit, maxRetries);
    } else {
      LateWithinLiability(w, unit, maxRetries);
    }
  }

  lemma EarlyWithinLiability(w: Wager, unit: real, maxRetries: nat)
    requires unit > 0.0 && w.early && Inv(w, maxRetries)
    ensures 0.0 <= Owed(w, unit) <= Raw(LiabilityOf(w), unit)
  {
    hide Owed, LateInv, Ahead;
    EarlyOwed(w, unit, maxRetries);
    RawBounds(0.0, unit);
    LegRawsNonNegative(w, unit, maxRetries);
  }

  lemma LegRawsNonNegative(w: Wager, unit: real, maxRetries: nat)
    requires unit > 0.0 && Inv(w, maxRetries)
    ensures Raw(w.amount, unit) >= 0.0 && forall i :: 0 <= i < |w.plan| ==> Raw(w.plan[i].amount, unit) >= 0.0
  {
    hide Shape, Counted, CallsBounded;
    RawBounds(w.amount, unit);
    forall i | 0 <= i < |w.plan| ensures Raw(w.plan[i].amount, unit) >= 0.0 {
      RawBounds(w.plan[i].amount, unit);
    }
  }

  lemma LateWithinLiability(w: Wager, unit: real, maxRetries: nat)
    requires unit > 0.0 && LateInv(w, maxRetries) && !w.at.Down? && !w.at.Unbooked?
    ensures 0.0 <= Owed(w, unit) <= Raw(LiabilityOf(w), unit)
  {
    hide Raw, UndoneRaw, Counted, CallsBounded, Progress;
    RawBounds(w.amount, unit);
    RawBounds(0.0, unit);
    if w.plan != [] {
      OwedOfPlan(w, unit);
    }
  }

  /** Whatever part of the plan is undone fits in the wager's deposit. */
  lemma OwedOfPlan(w: Wager, unit: real)
    requires unit > 0.0 && ExactLegs(w.plan, w.amount)
    ensures forall n: nat :: 0.0 <= UndoneRaw(w.plan, n, unit) <= Raw(w.amount, unit)
  {
    hide Raw, UndoneRaw;
    LegsFitInDeposit(w.plan, w.amount, unit);
    forall n: nat ensures 0.0 <= UndoneRaw(w.plan, n, unit) <= Raw(w.amount, unit) {
      UndoneRawFits(w.plan, n, unit);
      if n <= |w.plan| {
        UndoneRawShrinks(w.plan, n, unit);
      } else {
        NothingUndone(w.plan, n, unit);
        UndoneRawFits(w.plan, 0, unit);
      }
    }
  }

  lemma NothingUndone(plan: seq<Leg>, n: nat, unit: real)
    requires n >= |plan|
    ensures UndoneRaw(plan, n, unit) == 0.0
  {
  }

  lemma {:induction false} TotalOfFloors(amounts: map<WagerId, real>, floors: map<WagerId, real>, unit: real)
    requires amounts.Keys == floors.Keys && unit > 0.0
    requires forall id :: id in amounts ==> floors[id] <= Raw(amounts[id], unit)
    ensures Total(floors) <= Raw(Total(amounts), unit)
    decreases |amounts|
  {
    hide Raw;
    if amounts == map[] {
      assert floors == map[];
      RawBounds(0.0, unit);
    } else {
      var id :| id in amounts;
      TotalRemove(amounts, id);
      TotalRemove(floors, id);
      TotalOfFloors(amounts - {id}, floors - {id}, unit);
      RawAdds(amounts[id], Total(amounts - {id}), unit);
    }
  }

  /**
   * The reported liability over-counts partly paid wagers and floors only once, so as long as
   * everything is loaded it covers everything owed.
   */
  lemma LiabilityCoversOwed(wagers: map<WagerId, Wager>, unit: real, maxRetries: nat)
    requires unit > 0.0 && AllLoaded(wagers)
    requires forall id :: id in wagers ==> Inv(wagers[id], maxRetries)
    ensures TotalOwed(wagers, unit) <= Raw(OutstandingLiability(wagers), unit)
  {
    hide Raw, Owed, LiabilityOf, Inv;
    forall id | id in wagers ensures Owed(wagers[id], unit) <= Raw(LiabilityOf(wagers[id]), unit) {
      OwedWithinLiability(wagers[id], unit, maxRetries);
    }
    TotalOfFloors(LiabilityMap(wagers), OwedMap(wagers, unit), unit);
  }

  // ----- The rent-offset burn -----

  /** What a transfer burns on top of the payment, from the balance and liability it has read. */
  function RentBurn(enabled: bool, createsAccount: bool, rent: real, balance: real, raw: real, liability: real): real {
    if enabled && createsAccount && rent > 0.0 && balance - liability >= rent && balance >= raw + rent then rent
    else 0.0
  }

  /**
   * The guard judges the balance it has read. Since then `spent` has left the wallet, and burns of `pending`
   * are under way. Whatever the balance, as long as it covers what is owed and those burns it still does after
   * this burn, exactly when the liability, or the payment itself, is at least all three together.
   */
  lemma GuardIsSafeExactlyWhen(rent: real, raw: real, liability: real, owed: real, pending: real, spent: real)
    requires rent > 0.0
    ensures (forall balance: real :: balance - spent - pending >= owed ==>
               balance - spent - pending - RentBurn(true, true, rent, balance, raw, liability) >= owed)
            <==> owed + pending + spent <= Max(liability, raw)
  {
    var tight := Max(owed + pending + spent, Max(liability, raw) + rent);
    if owed + pending + spent > Max(liability, raw) {
      assert RentBurn(true, true, rent, tight, raw, liability) == rent;
      assert tight - spent - pending - RentBurn(true, true, rent, tight, raw, liability) < owed;
    }
  }

  // ----- The system -----

  /** An outstanding transfer: it has read the balance, or it is sent with the burn it has decided on. */
  datatype Quote = Read(balance: real) | Sent(rent: real)

  type Signature = string

  datatype System = System(
    wagers: map<WagerId, Wager>, balance: real, quotes: map<WagerId, Quote>,
    reopened: real,  // raw units owed again because a confirmation or a parking was lost
    used: set<Signature>)  // the transactions whose deposits have been accepted

  datatype Action =
    | Deposit(id: WagerId, wallet: Wallet, amount: real, signature: Signature)  // verified and accepted
    | TopUp(raw: real)
    | Local(id: WagerId, event: Event)      // a step of one wager that moves no tokens
    | Begin(id: WagerId)                    // the outstanding transfer reads the balance
    | Send(id: WagerId, rent: real)         // it reads the liability, decides the burn and sends
    | Confirm(id: WagerId, reported: bool)  // the transaction lands; the call returns or throws
    | PowerLoss

  function LegRaw(w: Wager, unit: real): real {
    if w.at.Calling? && w.at.leg < |w.plan| then Raw(w.plan[w.at.leg].amount, unit) else 0.0
  }

  function LegIsBurn(w: Wager): bool {
    w.at.Calling? && w.at.leg < |w.plan| && w.plan[w.at.leg].kind.Burn?
  }

  /** What an accepted deposit adds to the balance: a transaction moves its tokens once, however often it is accepted. */
  function Brought(s: System, a: Action, unit: real): real
    requires a.Deposit?
  {
    if a.signature in s.used then 0.0 else Raw(a.amount, unit)
  }

  ghost predicate Possible(s: System, a: Action, unit: real) {
    match a
    case Deposit(id, wallet, amount, _) => id !in s.wagers && amount > 0.0 && Raw(amount, unit) > 0.0
    case TopUp(raw) => raw >= 0.0
    case Local(id, e) =>
      id in s.wagers && !e.Land? && !e.LandThenThrow? && !e.Crash? && Enabled(s.wagers[id], e)
    case Begin(id) => id in s.wagers && s.wagers[id].at.Calling? && id !in s.quotes
    case Send(id, rent) =>
      && id in s.wagers && s.wagers[id].at.Calling? && id in s.quotes && s.quotes[id].Read?
      && var raw := LegRaw(s.wagers[id], unit);
         && raw > 0.0 && s.quotes[id].balance >= raw
         && (rent == 0.0
             || (!LegIsBurn(s.wagers[id])
                 && rent == RentBurn(true, true, rent, s.quotes[id].balance, raw,
                                     Raw(OutstandingLiability(s.wagers), unit))))
    case Confirm(id, reported) =>
      && id in s.wagers && s.wagers[id].at.Calling? && id in s.quotes && s.quotes[id].Sent?
      && Enabled(s.wagers[id], if reported then Land else LandThenThrow)
      && s.balance >= LegRaw(s.wagers[id], unit) + s.quotes[id].rent
    case PowerLoss => true
  }

  function CrashDebt(w: Wager, unit: real, maxRetries: nat): real {
    Max(0.0, Owed(Step(w, Crash, maxRetries), unit) - Owed(w, unit))
  }

  ghost function CrashDebts(wagers: map<WagerId, Wager>, unit: real, maxRetries: nat): map<WagerId, real> {
    map id | id in wagers :: CrashDebt(wagers[id], unit, maxRetries)
  }

  ghost function Crashed(wagers: map<WagerId, Wager>, maxRetries: nat): map<WagerId, Wager> {
    map id | id in wagers :: Step(wagers[id], Crash, maxRetries)
  }

  ghost function Act(s: System, a: Action, unit: real, maxRetries: nat): System
    requires Possible(s, a, unit)
  {
    match a
    case Deposit(id, wallet, amount, signature) =>
      s.(wagers := s.wagers[id := Deposited(id, wallet, amount)], balance := s.balance + Brought(s, a, unit),
         used := s.used + {signature})
    case TopUp(raw) => s.(balance := s.balance + raw)
    case Local(id, e) => s.(wagers := s.wagers[id := Step(s.wagers[id], e, maxRetries)], quotes := s.quotes - {id})
    case Begin(id) => s.(quotes := s.quotes[id := Read(s.balance)])
    case Send(id, rent) => s.(quotes := s.quotes[id := Sent(rent)])
    case Confirm(id, reported) =>
      var w := s.wagers[id];
      var raw := LegRaw(w, unit);
      System(s.wagers[id := Step(w, if reported then Land else LandThenThrow, maxRetries)],
             s.balance - raw - s.quotes[id].rent, s.quotes - {id},
             s.reopened + (if reported then 0.0 else raw), s.used)
    case PowerLoss =>
      System(Crashed(s.wagers, maxRetries), s.balance, map[],
             s.reopened + Total(CrashDebts(s.wagers, unit, maxRetries)), s.used)
  }

  function RentOf(q: Quote): real {
    if q.Sent? then q.rent else 0.0
  }

  ghost function Rents(quotes: map<WagerId, Quote>): map<WagerId, real> {
    map id | id in quotes :: RentOf(quotes[id])
  }

  /** The burns that have been sent and have not landed. */
  ghost function PendingRents(s: System): real {
    Total(Rents(s.quotes))
  }

  /**
   * A transfer that burns decides on figures that are good when it is sent: every record is loaded, and the
   * balance of that moment still leaves the burn, and the burns already under way, above the liability read.
   */
  ghost predicate FreshBurn(s: System, a: Action, unit: real) {
    a.Send? && a.rent > 0.0 ==>
      AllLoaded(s.wagers) && Raw(OutstandingLiability(s.wagers), unit) + PendingRents(s) + a.rent <= s.balance
  }

  /** The same, and an accepted deposit has a transaction of its own. */
  ghost predicate Fresh(s: System, a: Action, unit: real) {
    FreshBurn(s, a, unit) && (a.Deposit? ==> a.signature !in s.used)
  }

  ghost predicate LiveQuote(s: System, id: WagerId)
    requires id in s.quotes
  {
    id in s.wagers && s.wagers[id].at.Calling? && RentOf(s.quotes[id]) >= 0.0
  }

  ghost predicate SystemInv(s: System, unit: real, maxRetries: nat) {
    && unit > 0.0 && s.reopened >= 0.0
    && (forall id :: id in s.wagers ==> Inv(s.wagers[id], maxRetries))
    && (forall id :: id in s.quotes ==> LiveQuote(s, id))
  }

  /** The balance covers what is owed, but for what lost confirmations opened again. */
  ghost predicate Solvent(s: System, unit: real) {
    TotalOwed(s.wagers, unit) <= s.balance + s.reopened
  }

  /** It covers the burns under way as well. */
  ghost predicate Backed(s: System, unit: real) {
    TotalOwed(s.wagers, unit) + PendingRents(s) <= s.balance + s.reopened
  }

  // ----- One wager's step and what it owes -----

  lemma LocalOwesNoMore(w: Wager, e: Event, unit: real, maxRetries: nat)
    requires unit > 0.0 && Inv(w, maxRetries) && Enabled(w, e)
    requires !e.Land? && !e.LandThenThrow? && !e.Crash?
    ensures Owed(Step(w, e, maxRetries), unit) <= Owed(w, unit)
  {
    hide Owed, Step, Enabled, LateInv, Ahead;
    if w.early {
      EarlyOwesNoMore(w, e, unit, maxRetries);
    } else if e.Sweep? && w.at.Planning? {
      StepKeepsInv(w, e, maxRetries);
      SweepGetsAhead(w, maxRetries);
      EarlyOwed(Step(w, e, maxRetries), unit, maxRetries);
      OwedWhilePlanning(w, e, unit, maxRetries);
    } else {
      LateOwesNoMore(w, e, unit, maxRetries);
    }
  }

  lemma OwedWhilePlanning(w: Wager, e: Event, unit: real, maxRetries: nat)
    requires LateInv(w, maxRetries) && e.Sweep? && w.at.Planning? && Enabled(w, e)
    ensures Owed(w, unit) == Raw(w.amount, unit)
    ensures var w' := Step(w, e, maxRetries); w'.amount == w.amount && w'.at.Calling?
  {
    hide Raw, UndoneRaw, Counted, CallsBounded, ExactLegs;
    FirstUndoneIs(w.mem.value.legs, w.plan, 0);
  }

  lemma EarlyOwesNoMore(w: Wager, e: Event, unit: real, maxRetries: nat)
    requires unit > 0.0 && w.early && Inv(w, maxRetries) && Enabled(w, e)
    requires !e.Land? && !e.LandThenThrow? && !e.Crash?
    ensures Owed(Step(w, e, maxRetries), unit) <= Owed(w, unit)
  {
    hide Owed, LateInv, Ahead, Raw, Step, Enabled;
    EarlyOwed(w, unit, maxRetries);
    LegRawsNonNegative(w, unit, maxRetries);
    if e.Put? {
      PutCatchesUp(w, maxRetries);
      CaughtUpOwesNoMore(w, unit, maxRetries);
    } else {
      AheadFollows(w, e, maxRetries);
      StepKeepsInv(w, e, maxRetries);
      EarlyOwed(Step(w, e, maxRetries), unit, maxRetries);
      AheadMoves(w, e, maxRetries);
    }
  }

  lemma CaughtUpOwesNoMore(w: Wager, unit: real, maxRetries: nat)
    requires unit > 0.0 && w.early && Inv(w, maxRetries)
    ensures Owed(AsStored(w), unit) <= Owed(w, unit)
  {
    hide Raw, UndoneRaw, Shape, Counted, CallsBounded, ExactLegs;
    OwedOfPlan(w, unit);
  }

  lemma AheadMoves(w: Wager, e: Event, maxRetries: nat)
    requires w.early && w.mem.Some? && Enabled(w, e) && (e.Throw? || e.MarkDone?)
    ensures var w' := Step(w, e, maxRetries);
            && w'.amount == w.amount && w'.plan == w.plan && w'.mem.Some?
            && if e.Throw? then w.at.Calling? && w'.at.Erring? else w.at.Landed? && w'.at.Marked?
  {
  }

  lemma LateOwesNoMore(w: Wager, e: Event, unit: real, maxRetries: nat)
    requires unit > 0.0 && LateInv(w, maxRetries) && Enabled(w, e)
    requires !e.Land? && !e.LandThenThrow? && !e.Crash? && !(e.Sweep? && w.at.Planning?)
    ensures Owed(Step(w, e, maxRetries), unit) <= Owed(w, unit)
  {
    hide Raw, UndoneRaw, Counted, CallsBounded;
    if e.Put? {
      PutOwesNoMore(w, unit, maxRetries);
    } else if e.Load? {
      LoadOwesNoMore(w, unit, maxRetries);
    } else if e.Throw? || e.MarkDone? {
      FirstUndoneIs(w.mem.value.legs, w.plan, w.at.leg);
      OwedOfPlan(w, unit);
    } else if e.Sweep? {
      OwedOfPlan(w, unit);
    }
  }

  lemma LoadOwesNoMore(w: Wager, unit: real, maxRetries: nat)
    requires unit > 0.0 && LateInv(w, maxRetries) && Enabled(w, Load)
    ensures Owed(Step(w, Load, maxRetries), unit) <= Owed(w, unit)
  {
    hide Raw, UndoneRaw, Counted, CallsBounded, ExactLegs;
    if w.store.value.status.Settling? {
      NothingUndone(w.plan, |w.plan|, unit);
    }
  }

  lemma PutOwesNoMore(w: Wager, unit: real, maxRetries: nat)
    requires unit > 0.0 && LateInv(w, maxRetries) && Enabled(w, Put)
    ensures Owed(Step(w, Put, maxRetries), unit) <= Owed(w, unit)
  {
    hide Raw, UndoneRaw, Counted, CallsBounded, ExactLegs;
    if w.at.Planning? {
      FirstUndoneIs(w.mem.value.legs, w.plan, 0);
      OwedOfPlan(w, unit);
    } else if w.at.Marked? {
      FirstUndoneIs(w.mem.value.legs, w.plan, w.at.leg + 1);
      NothingUndone(w.plan, |w.plan|, unit);
    }
  }

  /** A landing leg takes exactly its own raw amount off what is owed; an unreported one takes nothing off. */
  lemma LandingOwes(w: Wager, unit: real, maxRetries: nat)
    requires unit > 0.0 && Inv(w, maxRetries) && w.at.Calling?
    ensures Owed(Step(w, Land, maxRetries), unit) == Owed(w, unit) - LegRaw(w, unit)
    ensures Enabled(w, LandThenThrow) && Owed(Step(w, LandThenThrow, maxRetries), unit) <= Owed(w, unit)
  {
    hide Raw, Counted, CallsBounded, ExactLegs;
    FirstUndoneIs(w.mem.value.legs, w.plan, w.at.leg);
    OwedOfPlan(w, unit);
  }

  /** A crash makes a wager owe more only if it loses a confirmation or a parking that was not yet saved. */
  lemma CrashDebtOnlyInWindow(w: Wager, unit: real, maxRetries: nat)
    requires unit > 0.0 && Inv(w, maxRetries)
    requires !w.at.Landed? && !w.at.Marked? && !(w.at.Erring? && w.mem.value.status.Failed?)
    ensures CrashDebt(w, unit, maxRetries) == 0.0
  {
    if w.early {
      EarlyCrashDebt(w, unit, maxRetries);
    } else {
      LateCrashDebt(w, unit, maxRetries);
    }
  }

  lemma EarlyCrashDebt(w: Wager, unit: real, maxRetries: nat)
    requires unit > 0.0 && w.early && Inv(w, maxRetries)
    requires !w.at.Landed? && !w.at.Marked? && !(w.at.Erring? && w.mem.value.status.Failed?)
    ensures CrashDebt(w, unit, maxRetries) == 0.0
  {
    EarlyOwed(w, unit, maxRetries);
    LegRawsNonNegative(w, unit, maxRetries);
    hide Raw, UndoneRaw, LateInv;
    ForgottenOwes(w, unit, maxRetries);
  }

  lemma ForgottenOwes(w: Wager, unit: real, maxRetries: nat)
    requires w.early && Ahead(w)
    ensures var w' := Step(w, Crash, maxRetries); Owed(w', unit) == if w.store.Some? then Raw(w.amount, unit) else 0.0
  {
    hide Raw, UndoneRaw;
  }

  lemma LateCrashDebt(w: Wager, unit: real, maxRetries: nat)
    requires unit > 0.0 && LateInv(w, maxRetries)
    requires !w.at.Landed? && !w.at.Marked? && !(w.at.Erring? && w.mem.value.status.Failed?)
    ensures CrashDebt(w, unit, maxRetries) == 0.0
  {
    hide Raw, UndoneRaw, Counted, CallsBounded, ExactLegs;
    RawBounds(w.amount, unit);
    if w.at.Calling? {
      FirstUndoneIs(w.store.value.legs, w.plan, w.at.leg);
    } else if w.at.Erring? {
      FirstUndoneIs(w.mem.value.legs, w.plan, FirstUndone(w.store.value.legs));
    } else if w.at.Removing? {
      FirstUndoneIs(w.store.value.legs, w.plan, |w.plan|);
      NothingUndone(w.plan, |w.plan|, unit);
    }
  }

  // ----- Solvency over runs -----

  lemma OneWagerChanges(wagers: map<WagerId, Wager>, id: WagerId, w: Wager, unit: real)
    ensures TotalOwed(wagers[id := w], unit)
            == TotalOwed(wagers, unit) - (if id in wagers then Owed(wagers[id], unit) else 0.0) + Owed(w, unit)
  {
    hide Owed;
    TotalPut(OwedMap(wagers, unit), id, Owed(w, unit));
    assert OwedMap(wagers[id := w], unit) == OwedMap(wagers, unit)[id := Owed(w, unit)];
  }

  lemma PowerLossKeepsBacked(s: System, unit: real, maxRetries: nat)
    requires SystemInv(s, unit, maxRetries) && Solvent(s, unit)
    ensures SystemInv(Act(s, PowerLoss, unit, maxRetries), unit, maxRetries)
    ensures Backed(Act(s, PowerLoss, unit, maxRetries), unit)
  {
    hide Owed, Step, Inv;
    var debts := CrashDebts(s.wagers, unit, maxRetries);
    var crashed := Crashed(s.wagers, maxRetries);
    forall id | id in s.wagers ensures Inv(crashed[id], maxRetries) {
      StepKeepsInv(s.wagers[id], Crash, maxRetries) by { AlwaysCrashable(s.wagers[id]); }
    }
    var ceiling := map id | id in s.wagers :: Owed(s.wagers[id], unit) + debts[id];
    TotalAdd(OwedMap(s.wagers, unit), debts, ceiling);
    TotalLe(OwedMap(crashed, unit), ceiling);
    TotalNonNegative(debts);
    assert Rents(map[]) == map[];
  }

  lemma AlwaysCrashable(w: Wager)
    ensures Enabled(w, Crash)
  {
  }

  lemma RentChanges(quotes: map<WagerId, Quote>, id: WagerId, q: Quote)
    ensures Total(Rents(quotes[id := q])) == Total(Rents(quotes)) - (if id in quotes then RentOf(quotes[id]) else 0.0) + RentOf(q)
  {
    assert Rents(quotes[id := q]) == Rents(quotes)[id := RentOf(q)];
    TotalPut(Rents(quotes), id, RentOf(q));
  }

  lemma RentDrops(quotes: map<WagerId, Quote>, id: WagerId)
    ensures Total(Rents(quotes - {id})) == Total(Rents(quotes)) - (if id in quotes then RentOf(quotes[id]) else 0.0)
  {
    assert Rents(quotes - {id}) == Rents(quotes) - {id};
    TotalDrop(Rents(quotes), id);
  }

  /** What is missing for everything owed and every burn under way. */
  ghost function Shortfall(s: System, unit: real): real {
    TotalOwed(s.wagers, unit) + PendingRents(s) - s.balance - s.reopened
  }

  /** A landing transfer pays what it takes off the debts and burns what it had announced. */
  lemma ConfirmKeepsShortfall(s: System, a: Action, unit: real, maxRetries: nat)
    requires SystemInv(s, unit, maxRetries) && a.Confirm? && Possible(s, a, unit)
    ensures SystemInv(Act(s, a, unit, maxRetries), unit, maxRetries)
    ensures Shortfall(Act(s, a, unit, maxRetries), unit) <= Shortfall(s, unit)
    ensures a.reported ==> Shortfall(Act(s, a, unit, maxRetries), unit) == Shortfall(s, unit)
  {
    hide Owed, Step, Inv, Raw;
    var w := s.wagers[a.id];
    var e := if a.reported then Land else LandThenThrow;
    StepKeepsInv(w, e, maxRetries);
    LandingOwes(w, unit, maxRetries);
    OneWagerChanges(s.wagers, a.id, Step(w, e, maxRetries), unit);
    RentDrops(s.quotes, a.id);
    LegRawNonNegative(w, unit, maxRetries);
    OthersStayLive(s, a, unit, maxRetries);
  }

  lemma OthersStayLive(s: System, a: Action, unit: real, maxRetries: nat)
    requires (a.Confirm? || a.Local?) && Possible(s, a, unit) && forall id :: id in s.quotes ==> LiveQuote(s, id)
    ensures var s' := Act(s, a, unit, maxRetries); forall id :: id in s'.quotes ==> LiveQuote(s', id)
  {
    hide Owed, Inv, Raw;
    var s' := Act(s, a, unit, maxRetries);
    forall id | id in s'.quotes ensures LiveQuote(s', id) {
      assert LiveQuote(s, id);
    }
  }

  lemma LegRawNonNegative(w: Wager, unit: real, maxRetries: nat)
    requires unit > 0.0 && Inv(w, maxRetries)
    ensures LegRaw(w, unit) >= 0.0
  {
    if w.at.Calling? {
      LegRawsNonNegative(w, unit, maxRetries);
    }
  }

  lemma SendKeepsBacked(s: System, id: WagerId, rent: real, unit: real, maxRetries: nat)
    requires SystemInv(s, unit, maxRetries) && Backed(s, unit)
    requires Possible(s, Send(id, rent), unit) && Fresh(s, Send(id, rent), unit)
    ensures SystemInv(Act(s, Send(id, rent), unit, maxRetries), unit, maxRetries)
    ensures Backed(Act(s, Send(id, rent), unit, maxRetries), unit)
  {
    hide Owed, Inv, Raw, LiabilityOf;
    SendAddsRent(s, id, rent, unit, maxRetries);
    if rent > 0.0 {
      LiabilityCoversOwed(s.wagers, unit, maxRetries);
    }
  }

  lemma SendAddsRent(s: System, id: WagerId, rent: real, unit: real, maxRetries: nat)
    requires SystemInv(s, unit, maxRetries) && Possible(s, Send(id, rent), unit)
    ensures SystemInv(Act(s, Send(id, rent), unit, maxRetries), unit, maxRetries) && rent >= 0.0
    ensures Shortfall(Act(s, Send(id, rent), unit, maxRetries), unit) == Shortfall(s, unit) + rent
  {
    hide Owed, Inv, Raw, LiabilityOf;
    RentChanges(s.quotes, id, Sent(rent));
    var s' := Act(s, Send(id, rent), unit, maxRetries);
    forall x | x in s'.quotes ensures LiveQuote(s', x) {
      assert x != id ==> LiveQuote(s, x);
    }
  }

  /** Every step keeps the balance covering what is owed and the burns under way, burns being decided on fresh figures. */
  lemma ActKeepsBacked(s: System, a: Action, unit: real, maxRetries: nat)
    requires SystemInv(s, unit, maxRetries) && Backed(s, unit)
    requires Possible(s, a, unit) && Fresh(s, a, unit)
    ensures SystemInv(Act(s, a, unit, maxRetries), unit, maxRetries)
    ensures Backed(Act(s, a, unit, maxRetries), unit)
  {
    hide Owed, Step, Inv, Raw, Enabled;
    match a
    case Deposit(_, _, _, _) => DepositKeepsInv(s, a, unit, maxRetries);
    case Local(id, e) =>
      StepKeepsInv(s.wagers[id], e, maxRetries);
      LocalOwesNoMore(s.wagers[id], e, unit, maxRetries);
      OneWagerChanges(s.wagers, id, Step(s.wagers[id], e, maxRetries), unit);
      RentDrops(s.quotes, id);
      assert id in s.quotes ==> LiveQuote(s, id);
      OthersStayLive(s, a, unit, maxRetries);
    case Begin(id) =>
      RentChanges(s.quotes, id, Read(s.balance));
      BeginKeepsInv(s, id, unit, maxRetries);
    case Send(id, rent) => SendKeepsBacked(s, id, rent, unit, maxRetries);
    case Confirm(_, _) => ConfirmKeepsShortfall(s, a, unit, maxRetries);
    case PowerLoss =>
      RentsNonNegative(s, unit, maxRetries);
      PowerLossKeepsBacked(s, unit, maxRetries);
    case TopUp(_) =>
      TopUpKeepsInv(s, a, unit, maxRetries);
  }

  /** A deposit adds its raw amount to the debts, and as much to the balance if its transaction is new. */
  lemma DepositKeepsInv(s: System, a: Action, unit: real, maxRetries: nat)
    requires SystemInv(s, unit, maxRetries) && a.Deposit? && Possible(s, a, unit)
    ensures SystemInv(Act(s, a, unit, maxRetries), unit, maxRetries)
    ensures Shortfall(Act(s, a, unit, maxRetries), unit) == Shortfall(s, unit) + Raw(a.amount, unit) - Brought(s, a, unit)
  {
    hide Owed, Inv, Raw;
    FreshDeposit(a.id, a.wallet, a.amount, unit, maxRetries);
    OneWagerChanges(s.wagers, a.id, Deposited(a.id, a.wallet, a.amount), unit);
    var s' := Act(s, a, unit, maxRetries);
    forall id | id in s'.quotes ensures LiveQuote(s', id) {
      assert LiveQuote(s, id);
    }
  }

  lemma TopUpKeepsInv(s: System, a: Action, unit: real, maxRetries: nat)
    requires SystemInv(s, unit, maxRetries) && a.TopUp? && Possible(s, a, unit)
    ensures SystemInv(Act(s, a, unit, maxRetries), unit, maxRetries)
  {
    hide Inv;
    var s' := Act(s, a, unit, maxRetries);
    forall id | id in s'.quotes ensures LiveQuote(s', id) {
      assert LiveQuote(s, id);
    }
  }

  lemma BeginKeepsInv(s: System, id: WagerId, unit: real, maxRetries: nat)
    requires SystemInv(s, unit, maxRetries) && Possible(s, Begin(id), unit)
    ensures SystemInv(Act(s, Begin(id), unit, maxRetries), unit, maxRetries)
  {
    hide Inv;
    var s' := Act(s, Begin(id), unit, maxRetries);
    forall x | x in s'.quotes ensures LiveQuote(s', x) {
      assert x != id ==> LiveQuote(s, x);
    }
  }

  lemma RentsNonNegative(s: System, unit: real, maxRetries: nat)
    requires SystemInv(s, unit, maxRetries)
    ensures PendingRents(s) >= 0.0
    ensures forall id :: id in s.quotes ==> RentOf(s.quotes[id]) <= PendingRents(s)
    ensures Backed(s, unit) ==> Solvent(s, unit)
  {
    hide Inv, Owed;
    var rents := Rents(s.quotes);
    forall id | id in rents ensures rents[id] >= 0.0 {
      assert LiveQuote(s, id);
    }
    TotalNonNegative(rents);
    forall id | id in s.quotes ensures RentOf(s.quotes[id]) <= PendingRents(s) {
      TotalAtLeast(rents, id);
    }
  }

  lemma FreshDeposit(id: WagerId, wallet: Wallet, amount: real, unit: real, maxRetries: nat)
    requires amount > 0.0
    ensures Inv(Deposited(id, wallet, amount), maxRetries)
    ensures Owed(Deposited(id, wallet, amount), unit) == Raw(amount, unit)
  {
  }

  ghost function ActAll(s: System, actions: seq<Action>, unit: real, maxRetries: nat): Option<System> {
    if actions == [] then Some(s)
    else
      var before := ActAll(s, actions[..|actions| - 1], unit, maxRetries);
      var a := actions[|actions| - 1];
      if before.Some? && Possible(before.value, a, unit) then Some(Act(before.value, a, unit, maxRetries)) else None
  }

  /** Every burn of the run is decided on fresh figures. */
  ghost predicate AllFresh(s: System, actions: seq<Action>, unit: real, maxRetries: nat)
    requires ActAll(s, actions, unit, maxRetries).Some?
  {
    actions == []
    || (var before := actions[..|actions| - 1];
        && Fresh(ActAll(s, before, unit, maxRetries).value, actions[|actions| - 1], unit)
        && AllFresh(s, before, unit, maxRetries))
  }

  lemma {:induction false} RunStaysBacked(s: System, actions: seq<Action>, unit: real, maxRetries: nat)
    requires SystemInv(s, unit, maxRetries) && Backed(s, unit)
    requires ActAll(s, actions, unit, maxRetries).Some? && AllFresh(s, actions, unit, maxRetries)
    ensures var s' := ActAll(s, actions, unit, maxRetries).value;
            SystemInv(s', unit, maxRetries) && Backed(s', unit) && Solvent(s', unit)
  {
    hide Act, Possible, Fresh, SystemInv, Solvent, Backed;
    if actions != [] {
      RunStaysBacked(s, actions[..|actions| - 1], unit, maxRetries);
      ActKeepsBacked(ActAll(s, actions[..|actions| - 1], unit, maxRetries).value, actions[|actions| - 1], unit, maxRetries);
    }
    RentsNonNegative(ActAll(s, actions, unit, maxRetries).value, unit, maxRetries);
  }

  function EmptyEscrow(balance: real): System {
    System(map[], balance, map[], 0.0, {})
  }

  lemma EmptyIsBacked(balance: real, unit: real, maxRetries: nat)
    requires unit > 0.0 && balance >= 0.0
    ensures SystemInv(EmptyEscrow(balance), unit, maxRetries) && Backed(EmptyEscrow(balance), unit)
  {
    assert OwedMap(map[], unit) == map[] && Rents(map[]) == map[];
  }

  /**
   * Solvency over every run of deposits, bookings, settlements, retries, transfers, crashes and reboots,
   * interleaved at will: if accepted deposits have transactions of their own and every rent burn is decided on
   * figures that are good when it is sent, the balance covers all active wagers, all undone legs and all burns under way, short by no more than what lost
   * confirmations opened again.
   */
  lemma EscrowStaysSolvent(balance: real, actions: seq<Action>, unit: real, maxRetries: nat)
    requires unit > 0.0 && balance >= 0.0
    requires ActAll(EmptyEscrow(balance), actions, unit, maxRetries).Some?
    requires AllFresh(EmptyEscrow(balance), actions, unit, maxRetries)
    ensures var s := ActAll(EmptyEscrow(balance), actions, unit, maxRetries).value;
            SystemInv(s, unit, maxRetries) && Backed(s, unit) && Solvent(s, unit)
  {
    hide ActAll, AllFresh, SystemInv, Backed;
    EmptyIsBacked(balance, unit, maxRetries);
    RunStaysBacked(EmptyEscrow(balance), actions, unit, maxRetries);
  }

  /** The code's own guard is enough for a transfer whose balance is still there and that no other burn overlaps. */
  lemma UndisturbedSendIsFresh(s: System, id: WagerId, rent: real, unit: real, maxRetries: nat)
    requires SystemInv(s, unit, maxRetries) && AllLoaded(s.wagers) && Possible(s, Send(id, rent), unit)
    requires s.balance >= s.quotes[id].balance + PendingRents(s)
    ensures Fresh(s, Send(id, rent), unit)
  {
    hide Raw, LiabilityOf, Inv;
  }

  // ----- Without lost confirmations -----

  /** The wager would owe more after a crash: a confirmation or a parking is not saved yet. */
  predicate InCrashWindow(w: Wager) {
    w.at.Landed? || w.at.Marked? || (w.at.Erring? && w.mem.Some? && w.mem.value.status.Failed?)
  }

  /** The action loses no confirmation. */
  ghost predicate Harmless(s: System, a: Action) {
    && (a.Confirm? ==> a.reported)
    && (a.PowerLoss? ==> forall id :: id in s.wagers ==> !InCrashWindow(s.wagers[id]))
  }

  ghost predicate AllHarmless(s: System, actions: seq<Action>, unit: real, maxRetries: nat)
    requires ActAll(s, actions, unit, maxRetries).Some?
  {
    actions == []
    || (var before := actions[..|actions| - 1];
        && Harmless(ActAll(s, before, unit, maxRetries).value, actions[|actions| - 1])
        && AllHarmless(s, before, unit, maxRetries))
  }

  lemma HarmlessReopensNothing(s: System, a: Action, unit: real, maxRetries: nat)
    requires SystemInv(s, unit, maxRetries) && Possible(s, a, unit) && Harmless(s, a)
    ensures Act(s, a, unit, maxRetries).reopened == s.reopened
  {
    hide Inv, Owed, Step, CrashDebt;
    if a.PowerLoss? {
      var debts := CrashDebts(s.wagers, unit, maxRetries);
      forall id | id in debts ensures debts[id] == 0.0 {
        NoWindowNoDebt(s.wagers[id], unit, maxRetries);
      }
      TotalIgnoresZeros(debts, debts.Keys);
      assert debts - debts.Keys == map[];
    }
  }

  lemma NoWindowNoDebt(w: Wager, unit: real, maxRetries: nat)
    requires unit > 0.0 && Inv(w, maxRetries) && !InCrashWindow(w)
    ensures CrashDebt(w, unit, maxRetries) == 0.0
  {
    if w.at.Erring? {
      ErringInMemory(w, maxRetries);
    }
    CrashDebtOnlyInWindow(w, unit, maxRetries);
  }

  lemma ErringInMemory(w: Wager, maxRetries: nat)
    requires Inv(w, maxRetries) && w.at.Erring?
    ensures w.mem.Some?
  {
  }

  lemma {:induction false} RunReopensNothing(s: System, actions: seq<Action>, unit: real, maxRetries: nat)
    requires SystemInv(s, unit, maxRetries) && Backed(s, unit)
    requires ActAll(s, actions, unit, maxRetries).Some?
    requires AllFresh(s, actions, unit, maxRetries) && AllHarmless(s, actions, unit, maxRetries)
    ensures ActAll(s, actions, unit, maxRetries).value.reopened == s.reopened
  {
    hide Act, Possible, Fresh, SystemInv, Backed, Harmless;
    if actions != [] {
      var before := actions[..|actions| - 1];
      RunReopensNothing(s, before, unit, maxRetries);
      RunStaysBacked(s, before, unit, maxRetries);
      HarmlessReopensNothing(ActAll(s, before, unit, maxRetries).value, actions[|actions| - 1], unit, maxRetries);
    }
  }

  /**
   * If moreover no call lands without reporting it and no crash falls between a confirmation and its put, the
   * balance alone covers everything.
   */
  lemma EscrowCoversEverything(balance: real, actions: seq<Action>, unit: real, maxRetries: nat)
    requires unit > 0.0 && balance >= 0.0
    requires ActAll(EmptyEscrow(balance), actions, unit, maxRetries).Some?
    requires AllFresh(EmptyEscrow(balance), actions, unit, maxRetries)
    requires AllHarmless(EmptyEscrow(balance), actions, unit, maxRetries)
    ensures var s := ActAll(EmptyEscrow(balance), actions, unit, maxRetries).value;
            s.reopened == 0.0 && TotalOwed(s.wagers, unit) + PendingRents(s) <= s.balance
  {
    hide ActAll, AllFresh, AllHarmless, SystemInv, TotalOwed, PendingRents;
    EmptyIsBacked(balance, unit, maxRetries);
    RunStaysBacked(EmptyEscrow(balance), actions, unit, maxRetries);
    RunReopensNothing(EmptyEscrow(balance), actions, unit, maxRetries);
  }

  // ----- The condition is exact -----

  lemma OneMoreAction(s0: System, actions: seq<Action>, s: System, a: Action, unit: real, maxRetries: nat)
    requires ActAll(s0, actions, unit, maxRetries) == Some(s) && Possible(s, a, unit)
    ensures ActAll(s0, actions + [a], unit, maxRetries) == Some(Act(s, a, unit, maxRetries))
    ensures AllFresh(s0, actions, unit, maxRetries) && Fresh(s, a, unit) ==> AllFresh(s0, actions + [a], unit, maxRetries)
  {
    hide Possible, Act, Fresh;
    assert (actions + [a])[..|actions|] == actions;
  }

  /** Uuids and signatures never run out. */
  lemma NewText(texts: set<string>) returns (text: string)
    ensures text !in texts
  {
    var longest := Longest(texts);
    text := seq(longest + 1, i => 'x');
  }

  lemma Longest(ids: set<string>) returns (n: nat)
    ensures forall id :: id in ids ==> |id| <= n
  {
    n := 0;
    var rest := ids;
    while rest != {}
      invariant rest <= ids && forall id :: id in ids && id !in rest ==> |id| <= n
      decreases |rest|
    {
      var id :| id in rest;
      n := if |id| > n then |id| else n;
      rest := rest - {id};
    }
  }

  /** Some whole raw amount above a bound, as a wager. */
  lemma AmountAbove(bound: real, unit: real) returns (amount: real)
    requires unit > 0.0
    ensures amount > 0.0 && Raw(amount, unit) > 0.0 && Raw(amount, unit) >= bound
  {
    var raw := NextWhole(bound);
    amount := AmountOf(raw, unit);
    hide Floor;
    assert Raw(amount, unit) == Floor(raw);
  }

  lemma NextWhole(bound: real) returns (raw: real)
    ensures raw > 0.0 && raw >= bound && Floor(raw) == raw
  {
    raw := (if bound > 0.0 then bound.Floor + 1 else 1) as real;
  }

  lemma AmountOf(raw: real, unit: real) returns (amount: real)
    requires raw > 0.0 && unit > 0.0
    ensures amount > 0.0 && amount * unit == raw
  {
    amount := raw / unit;
  }

  lemma OwedNonNegative(w: Wager, unit: real, maxRetries: nat)
    requires unit > 0.0 && Inv(w, maxRetries)
    ensures Owed(w, unit) >= 0.0
  {
    if w.at.Down? || w.at.Unbooked? {
      hide Raw, UndoneRaw, Counted, CallsBounded, ExactLegs;
      RawBounds(w.amount, unit);
      OwedWhenDown(w, unit, maxRetries);
    } else {
      OwedWithinLiability(w, unit, maxRetries);
    }
  }

  lemma OwedWhenDown(w: Wager, unit: real, maxRetries: nat)
    requires unit > 0.0 && Inv(w, maxRetries) && (w.at.Down? || w.at.Unbooked?)
    ensures Owed(w, unit) >= 0.0
  {
    hide Raw, UndoneRaw, Counted, CallsBounded;
    RawBounds(w.amount, unit);
    if w.plan != [] {
      OwedOfPlan(w, unit);
    }
  }

  /** Everything but one untouched deposit is in the balance, with the burns under way. */
  ghost predicate Payable(s: System, extra: WagerId, unit: real) {
    && extra in s.wagers && extra !in s.quotes
    && s.balance >= TotalOwed(s.wagers - {extra}, unit) + PendingRents(s)
  }

  lemma OthersOwed(wagers: map<WagerId, Wager>, extra: WagerId, unit: real)
    requires extra in wagers
    ensures TotalOwed(wagers, unit) == Owed(wagers[extra], unit) + TotalOwed(wagers - {extra}, unit)
  {
    hide Owed;
    assert OwedMap(wagers - {extra}, unit) == OwedMap(wagers, unit) - {extra};
    TotalRemove(OwedMap(wagers, unit), extra);
  }

  lemma LegFits(s: System, extra: WagerId, id: WagerId, unit: real, maxRetries: nat)
    requires SystemInv(s, unit, maxRetries) && Payable(s, extra, unit) && id in s.quotes
    ensures s.balance >= LegRaw(s.wagers[id], unit) + RentOf(s.quotes[id])
  {
    hide Owed, Inv, Raw, Step;
    assert LiveQuote(s, id);
    var others := OwedMap(s.wagers - {extra}, unit);
    forall x | x in others ensures others[x] >= 0.0 {
      OwedNonNegative(s.wagers[x], unit, maxRetries);
    }
    TotalAtLeast(others, id);
    LandingOwes(s.wagers[id], unit, maxRetries);
    StepKeepsInv(s.wagers[id], Land, maxRetries) by { CallingCanLand(s.wagers[id]); }
    OwedNonNegative(Step(s.wagers[id], Land, maxRetries), unit, maxRetries);
    RentsNonNegative(s, unit, maxRetries);
  }

  lemma CallingCanLand(w: Wager)
    requires w.at.Calling?
    ensures Enabled(w, Land)
  {
  }

  /** One outstanding burn lands; the rest stays payable. */
  lemma BurnLands(s: System, extra: WagerId, id: WagerId, unit: real, maxRetries: nat)
    requires SystemInv(s, unit, maxRetries) && Payable(s, extra, unit) && id in s.quotes && s.quotes[id].Sent?
    ensures Possible(s, Confirm(id, true), unit) && Fresh(s, Confirm(id, true), unit)
    ensures var s' := Act(s, Confirm(id, true), unit, maxRetries);
            && SystemInv(s', unit, maxRetries) && Payable(s', extra, unit) && s'.quotes == s.quotes - {id}
            && Shortfall(s', unit) == Shortfall(s, unit)
  {
    hide Owed, Inv, Raw, Step, LegRaw;
    assert LiveQuote(s, id);
    LegFits(s, extra, id, unit, maxRetries);
    CallingCanLand(s.wagers[id]);
    ConfirmKeepsShortfall(s, Confirm(id, true), unit, maxRetries);
    var s' := Act(s, Confirm(id, true), unit, maxRetries);
    assert s'.wagers == s.wagers[id := Step(s.wagers[id], Land, maxRetries)];
    OthersOwed(s.wagers, extra, unit);
    OthersOwed(s'.wagers, extra, unit);
  }

  /** A quote that is sent, if there is one. */
  function SentIds(quotes: map<WagerId, Quote>): set<WagerId> {
    set id | id in quotes && quotes[id].Sent?
  }

  lemma NothingPending(s: System)
    requires SentIds(s.quotes) == {}
    ensures PendingRents(s) == 0.0
  {
    var rents := Rents(s.quotes);
    forall id | id in rents ensures rents[id] == 0.0 {
      assert id !in SentIds(s.quotes);
    }
    TotalIgnoresZeros(rents, rents.Keys);
    assert rents - rents.Keys == map[];
  }

  /** Every burn under way lands: what was missing for it is now missing for the debts. */
  lemma {:induction false} AllBurnsLand(s0: System, actions: seq<Action>, s: System, extra: WagerId, unit: real, maxRetries: nat)
    returns (longer: seq<Action>)
    requires ActAll(s0, actions, unit, maxRetries) == Some(s) && AllFresh(s0, actions, unit, maxRetries)
    requires SystemInv(s, unit, maxRetries) && Payable(s, extra, unit)
    ensures ActAll(s0, longer, unit, maxRetries).Some? && AllFresh(s0, longer, unit, maxRetries)
    ensures var s' := ActAll(s0, longer, unit, maxRetries).value;
            TotalOwed(s'.wagers, unit) - s'.balance - s'.reopened == Shortfall(s, unit)
    decreases |SentIds(s.quotes)|
  {
    hide ActAll, AllFresh, Act, Possible, Fresh, SystemInv, Payable, TotalOwed;
    var sent := SentIds(s.quotes);
    if sent == {} {
      longer := actions;
      NothingPending(s);
    } else {
      var id :| id in sent;
      BurnLands(s, extra, id, unit, maxRetries);
      OneMoreAction(s0, actions, s, Confirm(id, true), unit, maxRetries);
      var s' := Act(s, Confirm(id, true), unit, maxRetries);
      assert SentIds(s'.quotes) == sent - {id};
      longer := AllBurnsLand(s0, actions + [Confirm(id, true)], s', extra, unit, maxRetries);
    }
  }

  /** A deposit large enough lets every transfer land without easing the shortfall. */
  lemma ShortfallShows(s: System, unit: real, maxRetries: nat) returns (actions: seq<Action>)
    requires SystemInv(s, unit, maxRetries)
    ensures ActAll(s, actions, unit, maxRetries).Some? && AllFresh(s, actions, unit, maxRetries)
    ensures var s' := ActAll(s, actions, unit, maxRetries).value;
            TotalOwed(s'.wagers, unit) - s'.balance - s'.reopened == Shortfall(s, unit)
  {
    hide Inv, Owed, Raw;
    var extra := NewText(s.wagers.Keys);
    var signature := NewText(s.used);
    var amount := AmountAbove(TotalOwed(s.wagers, unit) + PendingRents(s) - s.balance, unit);
    var a := Deposit(extra, extra, amount, signature);
    DepositKeepsInv(s, a, unit, maxRetries);
    var s' := Act(s, a, unit, maxRetries);
    assert s'.wagers - {extra} == s.wagers;
    assert extra in s.quotes ==> LiveQuote(s, extra);
    assert ActAll(s, [], unit, maxRetries) == Some(s) && AllFresh(s, [], unit, maxRetries);
    OneMoreAction(s, [], s, a, unit, maxRetries);
    actions := AllBurnsLand(s, [] + [a], s', extra, unit, maxRetries);
  }

  /**
   * From any state, every continuation whose further burns are decided on fresh figures stays solvent exactly
   * when the balance covers what is owed together with the burns already under way.
   */
  lemma BurnsAreSafeExactlyWhen(s: System, unit: real, maxRetries: nat)
    requires SystemInv(s, unit, maxRetries)
    ensures (forall actions :: ActAll(s, actions, unit, maxRetries).Some? && AllFresh(s, actions, unit, maxRetries) ==>
               Solvent(ActAll(s, actions, unit, maxRetries).value, unit))
            <==> Backed(s, unit)
  {
    hide ActAll, AllFresh, SystemInv, TotalOwed, PendingRents;
    if Backed(s, unit) {
      forall actions | ActAll(s, actions, unit, maxRetries).Some? && AllFresh(s, actions, unit, maxRetries)
        ensures Solvent(ActAll(s, actions, unit, maxRetries).value, unit)
      {
        RunStaysBacked(s, actions, unit, maxRetries);
      }
    } else {
      var actions := ShortfallShows(s, unit, maxRetries);
      assert !Solvent(ActAll(s, actions, unit, maxRetries).value, unit);
    }
  }

  /** At the moment of sending: a burn is safe exactly when it fits, with those under way, above what is owed. */
  lemma SendIsSafeExactlyWhen(s: System, id: WagerId, rent: real, unit: real, maxRetries: nat)
    requires SystemInv(s, unit, maxRetries) && Possible(s, Send(id, rent), unit)
    ensures var sent := Act(s, Send(id, rent), unit, maxRetries);
            (forall actions :: ActAll(sent, actions, unit, maxRetries).Some? && AllFresh(sent, actions, unit, maxRetries) ==>
               Solvent(ActAll(sent, actions, unit, maxRetries).value, unit))
            <==> TotalOwed(s.wagers, unit) + PendingRents(s) + rent <= s.balance + s.reopened
  {
    hide ActAll, AllFresh, SystemInv, TotalOwed, PendingRents, Solvent;
    SendAddsRent(s, id, rent, unit, maxRetries);
    BurnsAreSafeExactlyWhen(Act(s, Send(id, rent), unit, maxRetries), unit, maxRetries);
  }

  /** At the moment of accepting a deposit: it is safe exactly when what it adds to the debts is brought along or spare. */
  lemma DepositIsSafeExactlyWhen(s: System, a: Action, unit: real, maxRetries: nat)
    requires SystemInv(s, unit, maxRetries) && a.Deposit? && Possible(s, a, unit)
    ensures var taken := Act(s, a, unit, maxRetries);
            (forall actions :: ActAll(taken, actions, unit, maxRetries).Some? && AllFresh(taken, actions, unit, maxRetries) ==>
               Solvent(ActAll(taken, actions, unit, maxRetries).value, unit))
            <==> TotalOwed(s.wagers, unit) + PendingRents(s) + Raw(a.amount, unit) <= s.balance + s.reopened + Brought(s, a, unit)
  {
    hide ActAll, AllFresh, SystemInv, TotalOwed, PendingRents, Solvent, Raw, Brought;
    DepositKeepsInv(s, a, unit, maxRetries);
    BurnsAreSafeExactlyWhen(Act(s, a, unit, maxRetries), unit, maxRetries);
  }
}
