/**
 * The escrow manager itself: its records, the store it writes through to, and its loops.
 *
 * A method runs without interleaving; which chain calls succeed is its `lands` argument.
 * `DriveIsARun` ties the leg loop to the step system of `Outbox`.
 */
module EscrowManagement {
  import opened Prelude
  import opened Settlement
  import opened Outbox

  // ----- Specification -----

  /** What the manager holds: its records, the durable store, and the wagers being run. */
  datatype Books = Books(records: map<WagerId, Record>, store: map<WagerId, Record>, inFlight: set<WagerId>)

  /** The outcome of running a record's legs. */
  datatype Drive = Drive(record: Record, settled: bool)

  /** Runs the undone legs from `i` on, in order, up to the first that does not land. */
  function DriveFrom(r: Record, i: nat, lands: nat -> bool, maxRetries: nat): Drive
    requires i <= |r.legs|
    decreases |r.legs| - i
  {
    if i == |r.legs| then Drive(r, true)
    else if r.legs[i].done then DriveFrom(r, i + 1, lands, maxRetries)
    else if lands(i) then DriveFrom(MarkLeg(r, i), i + 1, lands, maxRetries)
    else Drive(CountFailure(r, maxRetries), false)
  }

  /** The books with a run's outcome filed. */
  function File(b: Books, id: WagerId, d: Drive): Books {
    if d.settled then b.(records := b.records - {id}, store := b.store - {id})
    else b.(records := b.records[id := d.record], store := b.store[id := d.record])
  }

  function AfterRun(b: Books, id: WagerId, lands: nat -> bool, maxRetries: nat): Books {
    if id !in b.records || id in b.inFlight then b
    else File(b, id, DriveFrom(b.records[id], 0, lands, maxRetries))
  }

  /** The record a plan settles: the booked one, or one made up for a deposit that never was booked. */
  function RecordFor(b: Books, plan: Plan): Record {
    if plan.wagerId in b.records then b.records[plan.wagerId]
    else if plan.returnTo.Some? then Record(plan.returnTo.value.wallet, plan.returnTo.value.amount, Active, [], 0)
    else Record("", plan.burn, Active, [], 0)
  }

  function AfterSettle(b: Books, plan: Plan, lands: nat -> bool, maxRetries: nat): Books {
    var record := RecordFor(b, plan).(legs := BuildLegs(plan), status := Settling);
    AfterRun(b.(records := b.records[plan.wagerId := record], store := b.store[plan.wagerId := record]),
             plan.wagerId, lands, maxRetries)
  }

  /** Boot handling of one row of the store. */
  function AfterLoad(b: Books, id: WagerId, row: Record, lands: nat -> bool, maxRetries: nat): Books {
    match row.status
    case Failed => b.(records := b.records[id := row])
    case Active =>
      AfterSettle(b.(records := b.records[id := row.(retries := 0)]),
                  RefundPlan(WagerEntry(id, row.wallet, row.amount)), lands, maxRetries)
    case Settling => AfterRun(b.(records := b.records[id := row]), id, lands, maxRetries)
  }

  function AfterLoads(b: Books, rows: map<WagerId, Record>, order: seq<WagerId>,
                      lands: WagerId -> nat -> bool, maxRetries: nat): Books
    requires forall id :: id in order ==> id in rows
  {
    if order == [] then b
    else
      var id := order[|order| - 1];
      AfterLoad(AfterLoads(b, rows, order[..|order| - 1], lands, maxRetries), id, rows[id], lands(id), maxRetries)
  }

  /** The sweep's turn at one record. */
  function AfterVisit(b: Books, id: WagerId, lands: nat -> bool, maxRetries: nat): Books {
    if id in b.records && b.records[id].status.Settling? then AfterRun(b, id, lands, maxRetries) else b
  }

  function Outcome(d: Drive): Option<Record> {
    if d.settled then None else Some(d.record)
  }

  ghost predicate Holds(m: map<WagerId, Record>, id: WagerId, r: Option<Record>) {
    if r.Some? then id in m && m[id] == r.value else id !in m
  }

  predicate Distinct(order: seq<WagerId>) {
    forall i, j :: 0 <= i < j < |order| ==> order[i] != order[j]
  }

  /** A settling record that nobody is running yet. */
  predicate DueForSweep(b: Books, id: WagerId) {
    id in b.records && b.records[id].status.Settling? && id !in b.inFlight
  }

  ghost predicate Untouched(b: Books, after: Books, id: WagerId) {
    && (id in after.records <==> id in b.records) && (id in b.records ==> after.records[id] == b.records[id])
    && (id in after.store <==> id in b.store) && (id in b.store ==> after.store[id] == b.store[id])
  }

  /** A due record that was visited has been run from where it stood; any other is as it was. */
  ghost predicate SweptAt(b: Books, after: Books, id: WagerId, visited: bool, lands: nat -> bool, maxRetries: nat) {
    if visited && DueForSweep(b, id) then
      var outcome := Outcome(DriveFrom(b.records[id], 0, lands, maxRetries));
      Holds(after.records, id, outcome) && Holds(after.store, id, outcome)
    else Untouched(b, after, id)
  }

  /** The due records of `order` have been run, and nothing else has changed. */
  ghost predicate Swept(b: Books, after: Books, order: seq<WagerId>, lands: WagerId -> nat -> bool, maxRetries: nat) {
    && after.inFlight == b.inFlight
    && forall id :: SweptAt(b, after, id, id in order, lands(id), maxRetries)
  }

  // ----- The class -----

  class EscrowManager {
    const maxRetries: nat
    var records: map<WagerId, Record>
    var store: map<WagerId, Record>
    var inFlight: set<WagerId>

    constructor (maxRetries: nat, store: map<WagerId, Record>)
      ensures this.maxRetries == maxRetries
      ensures Contents() == Books(map[], store, {})
    {
      this.maxRetries := maxRetries;
      this.records := map[];
      this.store := store;
      this.inFlight := {};
    }

    ghost function Contents(): Books
      reads this
    {
      Books(records, store, inFlight)
    }

    method RecordBooked(id: WagerId, wallet: Wallet, amount: real)
      modifies this
      ensures var record := Record(wallet, amount, Active, [], 0);
              Contents() == Books(old(records)[id := record], old(store)[id := record], old(inFlight))
    {
      var record := Record(wallet, amount, Active, [], 0);
      records := records[id := record];
      store := store[id := record];
    }

    method BuildLegs(plan: Plan) returns (legs: seq<Leg>)
      ensures legs == Settlement.BuildLegs(plan)
      ensures plan.returnTo.None? ==> forall w :: MovedTo(legs, PayDefender, w) == PositiveTo(plan.defenderPayouts, w)
    {
      hide MovedTo, PositiveTo, MovedAs;
      forall w ensures plan.returnTo.None? ==>
                         MovedTo(Settlement.BuildLegs(plan), PayDefender, w) == PositiveTo(plan.defenderPayouts, w) {
        LegsPayAsPlanned(plan, w);
      }
      if plan.returnTo.Some? && plan.returnTo.value.amount > 0.0 {
        return [Leg(Return, plan.returnTo.value.wallet, plan.returnTo.value.amount, false)];
      }
      legs := [];
      for i := 0 to |plan.defenderPayouts|
        invariant legs == PayoutLegs(plan.defenderPayouts[..i])
      {
        assert plan.defenderPayouts[..i + 1][..i] == plan.defenderPayouts[..i];
        var payout := plan.defenderPayouts[i];
        if payout.amount > 0.0 {
          legs := legs + [Leg(PayDefender, payout.wallet, payout.amount, false)];
        }
      }
      assert plan.defenderPayouts[..|plan.defenderPayouts|] == plan.defenderPayouts;
      if plan.recirculate > 0.0 {
        legs := legs + [Leg(Recirculate, "", plan.recirculate, false)];
      }
      if plan.burn > 0.0 {
        legs := legs + [Leg(Burn, "", plan.burn, false)];
      }
    }

    /** The in-memory record and its write-through. */
    method Persist(id: WagerId, record: Record)
      modifies this`records, this`store
      ensures records == old(records)[id := record]
      ensures store == old(store)[id := record]
    {
      records := records[id := record];
      store := store[id := record];
    }

    /** The leg loop. */
    method DriveLegs(id: WagerId, lands: nat -> bool) returns (settled: bool)
      requires id in records
      modifies this`records, this`store
      ensures var d := DriveFrom(old(records)[id], 0, lands, maxRetries);
              && settled == d.settled
              && records == old(records)[id := d.record]
              && (store == old(store)[id := d.record] || (settled && store == old(store)))
    {
      var record := records[id];
      var i := 0;
      while i < |record.legs|
        invariant i <= |record.legs|
        invariant DriveFrom(old(records)[id], 0, lands, maxRetries) == DriveFrom(record, i, lands, maxRetries)
        invariant records == old(records)[id := record]
        invariant store == old(store) || store == old(store)[id := record]
      {
        if !record.legs[i].done {
          if !lands(i) {
            record := CountFailure(record, maxRetries);
            Persist(id, record);
            return false;
          }
          record := MarkLeg(record, i);
          Persist(id, record);
        }
        i := i + 1;
      }
      return true;
    }

    method RunLegs(id: WagerId, lands: nat -> bool)
      requires id in records
      modifies this
      ensures Contents() == AfterRun(old(Contents()), id, lands, maxRetries)
    {
      if id in inFlight {
        return;
      }
      inFlight := inFlight + {id};
      var settled := DriveLegs(id, lands);
      if settled {
        records := records - {id};
        store := store - {id};
        assert records == old(records) - {id} && store == old(store) - {id};
      }
      inFlight := inFlight - {id};
      assert inFlight == old(inFlight);
    }

    method Settle(plan: Plan, lands: nat -> bool)
      modifies this
      ensures Contents() == AfterSettle(old(Contents()), plan, lands, maxRetries)
    {
      var record: Record;
      if plan.wagerId in records {
        record := records[plan.wagerId];
      } else if plan.returnTo.Some? {
        record := Record(plan.returnTo.value.wallet, plan.returnTo.value.amount, Active, [], 0);
      } else {
        record := Record("", plan.burn, Active, [], 0);
      }
      var legs := BuildLegs(plan);
      record := record.(legs := legs, status := Settling);
      records := records[plan.wagerId := record];
      store := store[plan.wagerId := record];
      RunLegs(plan.wagerId, lands);
    }

    method Refund(id: WagerId, wallet: Wallet, amount: real, lands: nat -> bool)
      modifies this
      ensures Contents() == AfterSettle(old(Contents()), RefundPlan(WagerEntry(id, wallet, amount)), lands, maxRetries)
    {
      Settle(Plan(id, Some(Payout(wallet, amount)), 0.0, 0.0, []), lands);
    }

    method LoadRow(id: WagerId, record: Record, lands: nat -> bool)
      modifies this
      ensures Contents() == AfterLoad(old(Contents()), id, record, lands, maxRetries)
    {
      records := records[id := record];
      if record.status.Active? {
        assert records[id := record.(retries := 0)] == old(records)[id := record.(retries := 0)];
        records := records[id := record.(retries := 0)];
        Refund(id, record.wallet, record.amount, lands);
      } else if record.status.Settling? {
        RunLegs(id, lands);
      }
    }

    /** `order` is the order in which the store returns its rows. */
    method ReconcileOnBoot(order: seq<WagerId>, lands: WagerId -> nat -> bool)
      requires forall id :: id in order ==> id in store
      modifies this
      ensures Contents() == AfterLoads(old(Contents()), old(store), order, lands, maxRetries)
    {
      hide AfterLoad;
      var rows := store;
      for i := 0 to |order|
        invariant Contents() == AfterLoads(old(Contents()), rows, order[..i], lands, maxRetries)
      {
        assert order[..i + 1][..i] == order[..i];
        LoadRow(order[i], rows[order[i]], lands(order[i]));
      }
      assert order[..|order|] == order;
    }

    /** `order` is the order in which the sweep visits the records, each once. */
    method Sweep(order: seq<WagerId>, lands: WagerId -> nat -> bool)
      requires Distinct(order)
      modifies this
      ensures Swept(old(Contents()), Contents(), order, lands, maxRetries)
    {
      hide DriveFrom, Swept;
      NothingSwept(Contents(), lands, maxRetries);
      for i := 0 to |order|
        invariant Swept(old(Contents()), Contents(), order[..i], lands, maxRetries)
      {
        var id := order[i];
        ghost var before := Contents();
        if id in records && records[id].status.Settling? {
          RunLegs(id, lands(id));
        }
        SweptOneMore(old(Contents()), before, Contents(), order, i, lands, maxRetries);
      }
      assert order[..|order|] == order;
    }

    method OutstandingLiability() returns (total: real)
      ensures total == Total(Liabilities(records))
    {
      total := 0.0;
      var todo := records.Keys;
      ghost var counted: map<WagerId, real> := map[];
      while todo != {}
        invariant todo <= records.Keys
        invariant counted == map id | id in records && id !in todo :: Liability(records[id])
        invariant total == Total(counted)
        decreases |todo|
      {
        var id :| id in todo;
        TotalPut(counted, id, Liability(records[id]));
        counted := counted[id := Liability(records[id])];
        if !records[id].status.Failed? {
          total := total + records[id].amount;
        }
        todo := todo - {id};
      }
      assert counted == Liabilities(records);
    }
  }

  // ----- The sweep -----

  lemma NothingSwept(b: Books, lands: WagerId -> nat -> bool, maxRetries: nat)
    ensures Swept(b, b, [], lands, maxRetries)
  {
  }

  /** Visiting one more record runs it from where it stood at the start, and only if it was due then. */
  lemma SweptOneMore(b: Books, before: Books, after: Books, order: seq<WagerId>, i: nat, lands: WagerId -> nat -> bool,
                     maxRetries: nat)
    requires i < |order| && Distinct(order) && Swept(b, before, order[..i], lands, maxRetries)
    requires after == AfterVisit(before, order[i], lands(order[i]), maxRetries)
    ensures Swept(b, after, order[..i + 1], lands, maxRetries)
  {
    hide SweptAt, AfterVisit, DriveFrom;
    var visited := order[i];
    assert visited !in order[..i] && order[..i + 1] == order[..i] + [visited];
    forall id ensures SweptAt(b, after, id, id in order[..i + 1], lands(id), maxRetries) {
      assert SweptAt(b, before, id, id in order[..i], lands(id), maxRetries);
      assert SweptAt(b, before, visited, false, lands(visited), maxRetries);
      OneVisit(b, before, visited, id, id in order[..i], lands(visited), lands(id), maxRetries);
    }
    VisitEnds(before, visited, lands(visited), maxRetries);
  }

  lemma OneVisit(b: Books, before: Books, visited: WagerId, id: WagerId, already: bool, landsVisited: nat -> bool,
                 lands: nat -> bool, maxRetries: nat)
    requires before.inFlight == b.inFlight && SweptAt(b, before, visited, false, landsVisited, maxRetries)
    requires SweptAt(b, before, id, already, lands, maxRetries)
    requires id == visited ==> !already && lands == landsVisited
    ensures SweptAt(b, AfterVisit(before, visited, landsVisited, maxRetries), id, already || id == visited, lands, maxRetries)
  {
    hide DriveFrom;
  }

  lemma VisitEnds(b: Books, id: WagerId, lands: nat -> bool, maxRetries: nat)
    ensures AfterVisit(b, id, lands, maxRetries).inFlight == b.inFlight
  {
    hide DriveFrom;
  }

  // ----- The loop as a run of the step system -----

  lemma {:induction false} RunConcat(w: Wager, first: seq<Event>, second: seq<Event>, maxRetries: nat)
    requires Run(w, first, maxRetries).Some?
    ensures Run(w, first + second, maxRetries) == Run(Run(w, first, maxRetries).value, second, maxRetries)
  {
    hide Step, Enabled;
    if second == [] {
      assert first + second == first;
    } else {
      var n := |second| - 1;
      RunConcat(w, first, second[..n], maxRetries);
      assert (first + second)[..|first| + n] == first + second[..n];
    }
  }

  /** The events of a run of the leg loop. */
  function LoopEvents(r: Record, i: nat, lands: nat -> bool): seq<Event>
    requires i <= |r.legs|
    decreases |r.legs| - i
  {
    if i == |r.legs| then [Put]
    else if r.legs[i].done then LoopEvents(r, i + 1, lands)
    else if lands(i) then [Land, MarkDone, Put] + LoopEvents(MarkLeg(r, i), i + 1, lands)
    else [Throw, Put]
  }

  lemma RunOfThree(w: Wager, a: Event, b: Event, c: Event, maxRetries: nat)
    requires Enabled(w, a) && Enabled(Step(w, a, maxRetries), b)
    requires Enabled(Step(Step(w, a, maxRetries), b, maxRetries), c)
    ensures Run(w, [a, b], maxRetries) == Some(Step(Step(w, a, maxRetries), b, maxRetries))
    ensures Run(w, [a, b, c], maxRetries) == Some(Step(Step(Step(w, a, maxRetries), b, maxRetries), c, maxRetries))
  {
    hide Step, Enabled;
    assert [a, b, c][..2] == [a, b] && [a, b][..1] == [a] && [a][..0] == [];
    assert Run(w, [a], maxRetries) == Some(Step(w, a, maxRetries));
  }

  /** One leg that lands takes the machine to the next undone leg. */
  lemma LandedLeg(w: Wager, maxRetries: nat)
    requires Inv(w, maxRetries) && !w.early && w.at.Calling?
    ensures var r := MarkLeg(w.mem.value, w.at.leg);
            Run(w, [Land, MarkDone, Put], maxRetries)
            == Some(RunLegs(MoveTokens(w).(mem := Some(r), store := Some(r))))
  {
    hide Counted, CallsBounded, ExactLegs;
    var w1 := Step(w, Land, maxRetries);
    var w2 := Step(w1, MarkDone, maxRetries);
    RunOfThree(w, Land, MarkDone, Put, maxRetries);
  }

  lemma FailedLeg(w: Wager, maxRetries: nat)
    requires Inv(w, maxRetries) && !w.early && w.at.Calling?
    ensures var r := Some(CountFailure(w.mem.value, maxRetries));
            Run(w, [Throw, Put], maxRetries) == Some(w.(mem := r, store := r, at := Idle))
  {
    hide Counted, CallsBounded, ExactLegs;
    RunOfThree(w, Throw, Put, Crash, maxRetries);
  }

  lemma MarkedProgress(w: Wager, maxRetries: nat)
    requires Inv(w, maxRetries) && !w.early && w.at.Calling?
    ensures w.mem.Some? && w.at.leg < |w.mem.value.legs| == |w.plan| && !w.mem.value.legs[w.at.leg].done
    ensures FirstUndone(MarkLeg(w.mem.value, w.at.leg).legs) == w.at.leg + 1
  {
    FirstUndoneIs(MarkLeg(w.mem.value, w.at.leg).legs, w.plan, w.at.leg + 1);
  }

  /** What the machine has reached when the loop ends with `d`. */
  ghost predicate Reached(w: Wager, d: Drive) {
    if d.settled then w.at.Over? && w.mem.None? && w.store.None?
    else w.at.Idle? && w.mem == w.store == Some(d.record)
  }

  /**
   * The manager's loop is a crash-free run of the step system: from the leg about to be called
   * it reaches exactly the record, in memory and in the store, that `DriveFrom` computes.
   */
  lemma {:induction false} DriveIsARun(w: Wager, lands: nat -> bool, maxRetries: nat)
    requires Inv(w, maxRetries) && !w.early && w.at.Calling?
    ensures var events := LoopEvents(w.mem.value, w.at.leg, lands);
            && CrashFree(events) && Run(w, events, maxRetries).Some?
            && Reached(Run(w, events, maxRetries).value, DriveFrom(w.mem.value, w.at.leg, lands, maxRetries))
            && Run(w, events, maxRetries).value.lost == w.lost
    decreases |w.plan| - w.at.leg
  {
    hide Step, Enabled, Inv, Run;
    MarkedProgress(w, maxRetries);
    var i, r := w.at.leg, w.mem.value;
    if lands(i) {
      LandedLeg(w, maxRetries);
      var w1 := Run(w, [Land, MarkDone, Put], maxRetries).value;
      RunKeepsInv(w, [Land, MarkDone, Put], maxRetries);
      if i + 1 < |w.plan| {
        DriveIsARun(w1, lands, maxRetries);
      } else {
        RemoveRecord(w1, maxRetries);
      }
      RunConcat(w, [Land, MarkDone, Put], LoopEvents(MarkLeg(r, i), i + 1, lands), maxRetries);
    } else {
      FailedLeg(w, maxRetries);
    }
  }

  lemma RemoveRecord(w: Wager, maxRetries: nat)
    requires Inv(w, maxRetries) && w.at.Removing?
    ensures Run(w, [Put], maxRetries) == Some(w.(store := None, at := Over))
  {
    assert [Put][..0] == [];
  }

  // ----- Settling and loading are steps -----

  /** The manager's records say of the wager what the step system does. */
  ghost predicate Agrees(b: Books, w: Wager) {
    (w.id in b.records <==> w.mem.Some?) && (w.mem.Some? ==> b.records[w.id] == w.mem.value)
  }

  /** The record the manager settles is the one the step system plans, also when the deposit was never booked. */
  lemma SettleIsAStep(b: Books, w: Wager, plan: Plan, maxRetries: nat)
    requires Inv(w, maxRetries) && Enabled(w, Settle(plan)) && Agrees(b, w) && plan.wagerId == w.id
    ensures var record := RecordFor(b, plan).(legs := BuildLegs(plan), status := Settling);
            Step(w, Settle(plan), maxRetries).mem == Some(record) && record.wallet == w.wallet && record.amount == w.amount
  {
    hide Settlement.BuildLegs, Counted, CallsBounded, ExactLegs;
  }

  /** Boot refunds an orphaned wager whole to its own wallet, with a fresh retry budget, and resumes a settling one as it was. */
  lemma LoadRefundsOrResumes(w: Wager, maxRetries: nat)
    requires Inv(w, maxRetries) && Enabled(w, Load)
    ensures var loaded := Step(w, Load, maxRetries); var row := w.store.value;
            && (row.status.Active? ==> loaded.mem == Some(Record(w.wallet, w.amount, Settling, loaded.plan, 0))
                                       && loaded.plan == [Leg(Return, w.wallet, w.amount, false)])
            && (row.status.Settling? && loaded.mem.Some? ==> loaded.mem == Some(row) && loaded.plan == w.plan)
            && (row.status.Failed? ==> loaded.mem == Some(row) && loaded.at.Idle?)
  {
    hide LateInv, PlanRecord, Settlement.BuildLegs, Zeros, FirstUndone;
    DownRecord(w, maxRetries);
    ForfeitAndRefundAreExact(EntryOf(w));
  }

  lemma DownRecord(w: Wager, maxRetries: nat)
    requires Inv(w, maxRetries) && w.at.Down?
    ensures w.amount > 0.0 && w.store.Some? && (w.store.value.status.Active? ==> ActiveRecord(w, w.store.value))
  {
    hide PlanRecord, Counted, CallsBounded, ExactLegs, FirstUndone;
  }

  // ----- Boot -----

  /** What boot makes of a row: parked rows stay, orphaned ones are refunded, settling ones resumed. */
  function RowOutcome(id: WagerId, row: Record, lands: nat -> bool, maxRetries: nat): Option<Record> {
    match row.status
    case Failed => Some(row)
    case Active =>
      var legs := Settlement.BuildLegs(RefundPlan(WagerEntry(id, row.wallet, row.amount)));
      Outcome(DriveFrom(row.(legs := legs, status := Settling, retries := 0), 0, lands, maxRetries))
    case Settling => Outcome(DriveFrom(row, 0, lands, maxRetries))
  }

  lemma LoadHandlesRow(b: Books, id: WagerId, row: Record, lands: nat -> bool, maxRetries: nat)
    requires b.inFlight == {} && id in b.store && b.store[id] == row
    ensures var after := AfterLoad(b, id, row, lands, maxRetries);
            && after.inFlight == {}
            && Holds(after.records, id, RowOutcome(id, row, lands, maxRetries))
            && Holds(after.store, id, RowOutcome(id, row, lands, maxRetries))
            && after.records - {id} == b.records - {id} && after.store - {id} == b.store - {id}
  {
    hide DriveFrom, Settlement.BuildLegs;
  }

  /**
   * Boot reconciliation decides every row of the store, each by its own status alone, and
   * leaves memory and store in agreement on it.
   */
  lemma {:induction false} BootHandlesEveryRow(b: Books, order: seq<WagerId>, lands: WagerId -> nat -> bool,
                                               maxRetries: nat)
    requires b.inFlight == {} && forall id :: id in order ==> id in b.store
    requires Distinct(order)
    ensures var after := AfterLoads(b, b.store, order, lands, maxRetries);
            && after.inFlight == {}
            && (forall id :: id in order ==>
                  && Holds(after.records, id, RowOutcome(id, b.store[id], lands(id), maxRetries))
                  && Holds(after.store, id, RowOutcome(id, b.store[id], lands(id), maxRetries)))
            && (forall id :: id !in order ==>
                  && (id in after.store <==> id in b.store)
                  && (id in b.store ==> after.store[id] == b.store[id]))
  {
    hide AfterLoad, RowOutcome;
    if order != [] {
      var n := |order| - 1;
      var before := AfterLoads(b, b.store, order[..n], lands, maxRetries);
      var after := AfterLoads(b, b.store, order, lands, maxRetries);
      BootHandlesEveryRow(b, order[..n], lands, maxRetries);
      LoadHandlesRow(before, order[n], b.store[order[n]], lands(order[n]), maxRetries);
      forall id | id != order[n]
        ensures id in after.records <==> id in before.records
        ensures id in before.records ==> after.records[id] == before.records[id]
        ensures id in after.store <==> id in before.store
        ensures id in before.store ==> after.store[id] == before.store[id]
      {
        SameElsewhere(before.records, after.records, order[n], id);
        SameElsewhere(before.store, after.store, order[n], id);
      }
    }
  }

  lemma SameElsewhere(m: map<WagerId, Record>, n: map<WagerId, Record>, gone: WagerId, id: WagerId)
    requires m - {gone} == n - {gone} && id != gone
    ensures id in m <==> id in n
    ensures id in m ==> m[id] == n[id]
  {
    assert id in m <==> id in m - {gone};
    assert id in n <==> id in n - {gone};
    assert id in m ==> (m - {gone})[id] == m[id];
    assert id in n ==> (n - {gone})[id] == n[id];
  }
}
