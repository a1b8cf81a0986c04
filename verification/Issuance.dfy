/**
 * The bound on outstanding credits over whole runs of the game: discoveries interleaved with grants that the
 * governor does not see, such as raid payouts, and with everything that can happen to credits once granted.
 */
module Issuance {
  import opened Prelude
  import opened Settlement
  import opened Emission
  import opened Discovery
  import opened Credits
  import opened YieldOrchestration

  datatype Event =
    | Discover(gross: real, budget: real, daily: real, shares: seq<Share>, finder: Wallet)
    | Move(step: Credits.Step)  // another grant, bridging, claiming, spending or a reboot

  /** The operator's settings: the taper and the vault cut in percent. */
  datatype Settings = Settings(taper: real, vaultPercent: real)

  predicate ValidSettings(s: Settings) {
    0.0 < s.taper <= 1.0 && FINDER_BONUS_PERCENT <= s.vaultPercent <= 100.0
  }

  /** A discovery's yield fits the taper band. */
  ghost predicate Possible(x: Bridge, e: Event, s: Settings) {
    match e
    case Discover(gross, budget, daily, shares, finder) =>
      && 0.0 < budget && 0.0 <= gross <= budget * s.taper && (daily == 0.0 || daily == 1.0)
      && (shares == [] || FullShares(shares))
    case Move(step) => Credits.Enabled(x, step)
  }

  ghost function Issued(x: Bridge, gross: real, budget: real, daily: real, s: Settings): real
    requires ValidSettings(s)
  {
    Max(0.0, Governed(gross, Min(BackingScale(budget, s.taper, Total(x.books.pending)), daily)))
  }

  /** What a discovery credits to miners. */
  ghost function CreditsOf(x: Bridge, e: Event, s: Settings): (payouts: seq<Payout>)
    requires ValidSettings(s) && e.Discover?
    ensures NonNegative(payouts)
  {
    PaidForNonNegative(Issued(x, e.gross, e.budget, e.daily, s), s, e.shares, e.finder);
    PaidFor(Issued(x, e.gross, e.budget, e.daily, s), s.vaultPercent, e.shares, e.finder, FINDER_BONUS_PERCENT)
  }

  ghost function Granted(x: Bridge, payouts: seq<Payout>): Bridge
    requires NonNegative(payouts)
  {
    if payouts == [] then x
    else
      var last := payouts[|payouts| - 1];
      Apply(Granted(x, payouts[..|payouts| - 1]), Grant(last.wallet, last.amount))
  }

  ghost function Next(x: Bridge, e: Event, s: Settings): Bridge
    requires ValidSettings(s) && Possible(x, e, s)
  {
    if e.Discover? then Granted(x, CreditsOf(x, e, s)) else Apply(x, e.step)
  }

  ghost function After(x: Bridge, events: seq<Event>, s: Settings): Option<Bridge>
    requires ValidSettings(s)
  {
    if events == [] then Some(x)
    else
      var before := After(x, events[..|events| - 1], s);
      var e := events[|events| - 1];
      if before.Some? && Possible(before.value, e, s) then Some(Next(before.value, e, s)) else None
  }

  function Amounts(inFlight: map<RequestId, Payout>): map<RequestId, real> {
    map id | id in inFlight :: inFlight[id].amount
  }

  /** What is out of the balances but could come back: open bridges, and spending that the log does not know. */
  ghost function Returning(x: Bridge): real {
    Total(Amounts(x.inFlight)) + Total(x.spent)
  }

  /** What could come to be outstanding without any further issuance. */
  ghost function Exposure(x: Bridge): real {
    Total(x.books.pending) + Returning(x)
  }

  // ----- One step -----

  lemma {:induction false} SharePayoutsNonNegative(pool: real, shares: seq<Share>, finder: Wallet, bonus: real)
    ensures NonNegative(SharePayouts(pool, shares, finder, bonus))
  {
    hide MinerAmount;
    if shares != [] {
      SharePayoutsNonNegative(pool, shares[..|shares| - 1], finder, bonus);
    }
  }

  lemma PaidForNonNegative(total: real, s: Settings, shares: seq<Share>, finder: Wallet)
    requires ValidSettings(s)
    ensures NonNegative(PaidFor(total, s.vaultPercent, shares, finder, FINDER_BONUS_PERCENT))
  {
    hide MinerPool, SharePayouts;
    if total > 0.0 {
      VaultCovers(total, s.vaultPercent);
      SharePayoutsNonNegative(MinerPool(total, s.vaultPercent), shares, finder, FINDER_BONUS_PERCENT);
    }
  }

  /** The grants of a discovery reach the balances and nothing else that counts here. */
  lemma {:induction false} GrantedCredits(x: Bridge, payouts: seq<Payout>)
    requires NonNegative(payouts)
    ensures Credits.Inv(x) ==> Credits.Inv(Granted(x, payouts))
    ensures Granted(x, payouts).books.pending == CreditPayouts(x.books.pending, payouts)
    ensures Granted(x, payouts).inFlight == x.inFlight && Granted(x, payouts).spent == x.spent
  {
    hide Credits.Inv;
    if payouts != [] {
      var n := |payouts| - 1;
      GrantedCredits(x, payouts[..n]);
      if Credits.Inv(x) {
        ApplyKeepsInv(Granted(x, payouts[..n]), Grant(payouts[n].wallet, payouts[n].amount));
      }
    }
  }

  /** A discovery never lifts the liability above the larger of what it was and the budget in force. */
  lemma DiscoveryStaysBacked(x: Bridge, e: Event, s: Settings)
    requires ValidSettings(s) && e.Discover? && Possible(x, e, s)
    ensures Total(Next(x, e, s).books.pending) <= Max(Total(x.books.pending), e.budget)
    ensures Returning(Next(x, e, s)) == Returning(x)
  {
    hide Governed, BackingScale, PaidFor, CreditPayouts, FullShares, SumAmounts, Granted;
    var total := Issued(x, e.gross, e.budget, e.daily, s);
    IssuanceFitsHeadroom(e.gross, e.budget, s.taper, Total(x.books.pending), e.daily);
    CreditsWithinYield(total, s.vaultPercent, e.shares, e.finder);
    CreditPayoutsTotal(x.books.pending, CreditsOf(x, e, s));
    GrantedCredits(x, CreditsOf(x, e, s));
  }

  /** A discovery adds exactly its credits to the exposure. */
  lemma DiscoveryAddsCredits(x: Bridge, e: Event, s: Settings)
    requires ValidSettings(s) && e.Discover? && Possible(x, e, s)
    ensures Exposure(Next(x, e, s)) == Exposure(x) + SumAmounts(CreditsOf(x, e, s))
    ensures Credits.Inv(x) ==> Credits.Inv(Next(x, e, s))
  {
    hide CreditsOf, CreditPayouts, SumAmounts, Amounts, Granted, Credits.Inv, FullShares;
    CreditPayoutsTotal(x.books.pending, CreditsOf(x, e, s));
    GrantedCredits(x, CreditsOf(x, e, s));
  }

  lemma TakeTotal(pending: map<Wallet, real>, w: Wallet, amount: real)
    requires amount > 0.0 && Held(pending, w) >= amount
    ensures Total(Take(pending, w, amount)) == Total(pending) - amount
  {
    TotalPut(pending, w, Held(pending, w) - amount);
    TotalDrop(pending, w);
  }

  lemma BridgeOpened(inFlight: map<RequestId, Payout>, id: RequestId, p: Payout)
    requires id !in inFlight
    ensures Total(Amounts(inFlight[id := p])) == Total(Amounts(inFlight)) + p.amount
  {
    assert Amounts(inFlight[id := p]) == Amounts(inFlight)[id := p.amount];
    TotalPut(Amounts(inFlight), id, p.amount);
  }

  lemma BridgeClosed(inFlight: map<RequestId, Payout>, id: RequestId)
    ensures Total(Amounts(inFlight - {id})) == Total(Amounts(inFlight)) - (if id in inFlight then inFlight[id].amount else 0.0)
  {
    assert Amounts(inFlight - {id}) == Amounts(inFlight) - {id};
    TotalDrop(Amounts(inFlight), id);
  }

  /** Nothing is in debt. */
  lemma TotalsNonNegative(x: Bridge)
    requires Credits.Inv(x)
    ensures Total(x.books.pending) >= 0.0 && Total(x.spent) >= 0.0 && Total(Amounts(x.inFlight)) >= 0.0
    ensures forall w :: Held(x.books.pending, w) >= 0.0
  {
    hide LogSum, InFlightOf;
    forall w ensures Held(x.books.pending, w) >= 0.0 && Held(x.spent, w) >= 0.0 {
      assert WalletInv(x, w);
    }
    assert forall w :: w in x.books.pending ==> x.books.pending[w] == Held(x.books.pending, w);
    assert forall w :: w in x.spent ==> x.spent[w] == Held(x.spent, w);
    TotalNonNegative(x.books.pending);
    TotalNonNegative(x.spent);
    forall id | id in Amounts(x.inFlight) ensures Amounts(x.inFlight)[id] >= 0.0 {
      assert id in x.inFlight;
    }
    TotalNonNegative(Amounts(x.inFlight));
  }

  lemma RebootTotal(x: Bridge)
    requires Credits.Inv(x)
    ensures var x' := Apply(x, Reboot);
            && Total(x'.books.pending) == Total(x.books.pending) + Total(x.spent)
            && x'.spent == map[] && x'.inFlight == map[]
  {
    hide Credits.Inv, Restored;
    forall w ensures Held(Apply(x, Reboot).books.pending, w) == Held(x.books.pending, w) + Held(x.spent, w) {
      RebootReturnsSpending(x, w);
    }
    TotalOfHeld(x.books.pending, x.spent, Apply(x, Reboot).books.pending);
  }

  /** Everything but a grant moves credits around or out: the exposure never grows. */
  lemma MoveKeepsExposure(x: Bridge, e: Credits.Step)
    requires Credits.Inv(x) && Credits.Enabled(x, e) && !e.Grant?
    ensures Exposure(Apply(x, e)) <= Exposure(x)
    ensures e.Fail? || e.LandThenFail? || e.SpendSome? ==> Exposure(Apply(x, e)) == Exposure(x)
    ensures e.Reboot? ==> Exposure(Apply(x, e)) == Exposure(x) - Total(Amounts(x.inFlight))
    ensures Credits.Inv(Apply(x, e))
  {
    hide Take, Amounts, Credits.Inv, Restored;
    ApplyKeepsInv(x, e);
    TotalsNonNegative(x);
    match e
    case ClaimAll(w) => TotalDrop(x.books.pending, w);
    case SpendSome(w, amount) =>
      if Affordable(x.books, w, amount) {
        TakeTotal(x.books.pending, w, amount);
        CreditTotal(x.spent, w, amount);
      }
    case Request(id, w, amount) =>
      if Affordable(x.books, w, amount) {
        TakeTotal(x.books.pending, w, amount);
        BridgeOpened(x.inFlight, id, Payout(w, amount));
      }
    case Land(id) => BridgeLands(x, id);
    case Reboot =>
      RebootTotal(x);
      NothingOpen(map[]);
    case Fail(id) => BridgeRefunded(x, id);
    case LandThenFail(id) => BridgeRefunded(x, id);
  }

  lemma BridgeLands(x: Bridge, id: RequestId)
    requires Credits.Inv(x) && id in x.inFlight
    ensures Total(Amounts(x.inFlight - {id})) <= Total(Amounts(x.inFlight))
  {
    hide WalletInv, Amounts;
    BridgeClosed(x.inFlight, id);
  }

  lemma BridgeRefunded(x: Bridge, id: RequestId)
    requires id in x.inFlight
    ensures var p := x.inFlight[id];
            Total(Credit(x.books.pending, p.wallet, p.amount)) + Total(Amounts(x.inFlight - {id}))
            == Total(x.books.pending) + Total(Amounts(x.inFlight))
  {
    hide Amounts;
    CreditTotal(x.books.pending, x.inFlight[id].wallet, x.inFlight[id].amount);
    BridgeClosed(x.inFlight, id);
  }

  lemma NothingOpen(inFlight: map<RequestId, Payout>)
    requires inFlight == map[]
    ensures Total(Amounts(inFlight)) == 0.0
  {
    assert Amounts(inFlight) == map[];
  }

  /** What an event grants without asking the governor. */
  function Ungoverned(e: Event): real {
    if e.Move? && e.step.Grant? then Max(e.step.amount, 0.0) else 0.0
  }

  function SumUngoverned(events: seq<Event>): (total: real)
    ensures total >= 0.0
  {
    if events == [] then 0.0 else SumUngoverned(events[..|events| - 1]) + Ungoverned(events[|events| - 1])
  }

  lemma GrantAddsExposure(x: Bridge, w: Wallet, amount: real)
    requires Credits.Inv(x) && amount >= 0.0
    ensures Credits.Inv(Apply(x, Grant(w, amount))) && Exposure(Apply(x, Grant(w, amount))) == Exposure(x) + amount
  {
    hide Credits.Inv, Amounts;
    ApplyKeepsInv(x, Grant(w, amount));
    CreditTotal(x.books.pending, w, amount);
  }

  /**
   * One step: the exposure stays below any bound that covers every budget, what could come back at discoveries,
   * and what was granted without the governor.
   */
  lemma StepStaysExposed(x: Bridge, e: Event, s: Settings, peak: real, open: real, ungoverned: real)
    requires ValidSettings(s) && Possible(x, e, s) && Credits.Inv(x)
    requires ungoverned >= 0.0 && Exposure(x) <= peak + open + ungoverned
    requires e.Discover? ==> e.budget <= peak && Returning(x) <= open
    ensures Credits.Inv(Next(x, e, s)) && Exposure(Next(x, e, s)) <= peak + open + ungoverned + Ungoverned(e)
  {
    hide Credits.Inv, Amounts, Granted, CreditsOf;
    if e.Discover? {
      DiscoveryStaysBacked(x, e, s);
      DiscoveryAddsCredits(x, e, s);
    } else if e.step.Grant? {
      GrantAddsExposure(x, e.step.wallet, e.step.amount);
    } else {
      MoveKeepsExposure(x, e.step);
    }
  }

  // ----- Whole runs -----

  ghost predicate WithinPeak(events: seq<Event>, peak: real) {
    forall i :: 0 <= i < |events| && events[i].Discover? ==> events[i].budget <= peak
  }

  /** No discovery of the run happens with more than `open` able to come back. */
  ghost predicate OpenAtDiscoveries(x: Bridge, events: seq<Event>, s: Settings, open: real)
    requires ValidSettings(s) && After(x, events, s).Some?
  {
    events == []
    || (var before := events[..|events| - 1];
        && OpenAtDiscoveries(x, before, s, open)
        && (events[|events| - 1].Discover? ==> Returning(After(x, before, s).value) <= open))
  }

  /**
   * Over any run of discoveries, other grants, claims, spending, bridges that deliver, fail or are misreported, and
   * reboots, the redeemable liability and everything that could come back to it stay within the largest budget
   * that was in force, plus the most that could come back at a discovery, plus what was granted without the governor.
   */
  lemma {:induction false} OutstandingWithinBudget(x: Bridge, events: seq<Event>, s: Settings, peak: real, open: real)
    requires ValidSettings(s) && After(x, events, s).Some? && WithinPeak(events, peak)
    requires Credits.Inv(x) && Exposure(x) <= peak + open && OpenAtDiscoveries(x, events, s, open)
    ensures Credits.Inv(After(x, events, s).value)
    ensures Exposure(After(x, events, s).value) <= peak + open + SumUngoverned(events)
  {
    if events != [] {
      hide Possible, Next, Credits.Inv, Exposure, Returning, Ungoverned;
      var before := events[..|events| - 1];
      OutstandingWithinBudget(x, before, s, peak, open);
      StepStaysExposed(After(x, before, s).value, events[|events| - 1], s, peak, open, SumUngoverned(before));
    }
  }

  lemma NewBridgeExposure()
    ensures Credits.Inv(NEW_BRIDGE) && Exposure(NEW_BRIDGE) == 0.0
  {
    NewBridgeInv();
    hide Credits.Inv;
    NothingOpen(map[]);
  }

  /**
   * If no discovery happens while a bridge is open or spending of this boot could come back, the liability of a
   * fresh game never exceeds the budget by more than what was granted without the governor.
   */
  lemma BudgetHolds(events: seq<Event>, s: Settings, peak: real)
    requires ValidSettings(s) && After(NEW_BRIDGE, events, s).Some? && WithinPeak(events, peak) && peak >= 0.0
    requires OpenAtDiscoveries(NEW_BRIDGE, events, s, 0.0)
    ensures var x := After(NEW_BRIDGE, events, s).value; Total(x.books.pending) <= Exposure(x) <= peak + SumUngoverned(events)
  {
    hide After, WithinPeak, OpenAtDiscoveries, Credits.Inv;
    NewBridgeExposure();
    OutstandingWithinBudget(NEW_BRIDGE, events, s, peak, 0.0);
    TotalsNonNegative(After(NEW_BRIDGE, events, s).value);
  }

  // ----- When the budget is safe -----

  /** Nothing is granted, by a discovery or otherwise. */
  predicate NoGrants(events: seq<Event>) {
    forall i :: 0 <= i < |events| ==> !events[i].Discover? && !events[i].step.Grant?
  }

  lemma {:induction false} MovesKeepExposure(x: Bridge, events: seq<Event>, s: Settings)
    requires ValidSettings(s) && After(x, events, s).Some? && NoGrants(events) && Credits.Inv(x)
    ensures Credits.Inv(After(x, events, s).value) && Exposure(After(x, events, s).value) <= Exposure(x)
  {
    if events != [] {
      hide Credits.Inv, Exposure, Apply, Credits.Enabled;
      MovesKeepExposure(x, events[..|events| - 1], s);
      MoveKeepsExposure(After(x, events[..|events| - 1], s).value, events[|events| - 1].step);
    }
  }

  lemma OneMoreMove(x: Bridge, events: seq<Event>, now: Bridge, step: Credits.Step, s: Settings)
    requires ValidSettings(s) && After(x, events, s) == Some(now) && !step.Grant? && Credits.Enabled(now, step)
    ensures After(x, events + [Move(step)], s) == Some(Apply(now, step))
    ensures NoGrants(events) ==> NoGrants(events + [Move(step)])
  {
    hide Apply, Credits.Enabled;
    assert (events + [Move(step)])[..|events|] == events;
  }

  /** When every open bridge fails, nothing is in flight any more. */
  lemma EveryBridgeFails(x0: Bridge, events: seq<Event>, x: Bridge, s: Settings) returns (longer: seq<Event>)
    requires ValidSettings(s) && After(x0, events, s) == Some(x) && NoGrants(events) && Credits.Inv(x)
    ensures After(x0, longer, s).Some? && NoGrants(longer)
    ensures var x' := After(x0, longer, s).value; Credits.Inv(x') && x'.inFlight == map[] && Exposure(x') == Exposure(x)
    decreases |x.inFlight|
  {
    hide After, NoGrants, Credits.Inv, Exposure;
    if x.inFlight == map[] {
      longer := events;
    } else {
      var id := SomeKey(x.inFlight);
      OneMoreMove(x0, events, x, Fail(id), s);
      MoveKeepsExposure(x, Fail(id));
      longer := EveryBridgeFails(x0, events + [Move(Fail(id))], Apply(x, Fail(id)), s);
    }
  }

  /** After that and a reboot the whole exposure is outstanding. */
  lemma ExposureComesBack(x: Bridge, s: Settings) returns (events: seq<Event>)
    requires ValidSettings(s) && Credits.Inv(x)
    ensures After(x, events, s).Some? && NoGrants(events)
    ensures Total(After(x, events, s).value.books.pending) == Exposure(x)
  {
    hide After, NoGrants, Credits.Inv, Amounts, Restored;
    NothingYet(x, s);
    events := EveryBridgeFails(x, [], x, s);
    var x1 := After(x, events, s).value;
    OneMoreMove(x, events, x1, Reboot, s);
    RebootTotal(x1);
    NothingOpen(x1.inFlight);
    events := events + [Move(Reboot)];
  }

  lemma NothingYet(x: Bridge, s: Settings)
    requires ValidSettings(s)
    ensures After(x, [], s) == Some(x) && NoGrants([])
  {
  }

  /**
   * Between grants the liability stays within a budget, whatever is claimed, spent, bridged, delivered,
   * refunded or rebooted, exactly when pending credits, those in flight and those spent since the last boot
   * together fit it now.
   */
  lemma WithinBudgetExactlyWhen(x: Bridge, s: Settings, budget: real)
    requires ValidSettings(s) && Credits.Inv(x)
    ensures (forall events :: After(x, events, s).Some? && NoGrants(events) ==>
               Total(After(x, events, s).value.books.pending) <= budget)
            <==> Exposure(x) <= budget
  {
    hide After, Credits.Inv, NoGrants, Amounts;
    if Exposure(x) <= budget {
      forall events | After(x, events, s).Some? && NoGrants(events)
        ensures Total(After(x, events, s).value.books.pending) <= budget
      {
        MovesKeepExposure(x, events, s);
        TotalsNonNegative(After(x, events, s).value);
      }
    } else {
      var events := ExposureComesBack(x, s);
      assert Total(After(x, events, s).value.books.pending) > budget;
    }
  }

  /**
   * A discovery leaves the budget safe until the next grant exactly when its credits fit what pending credits and
   * those that could come back leave of it; the governor's headroom counts the pending ones only.
   */
  lemma DiscoveryIsSafeExactlyWhen(x: Bridge, e: Event, s: Settings)
    requires ValidSettings(s) && e.Discover? && Possible(x, e, s) && Credits.Inv(x)
    ensures (forall events :: After(Next(x, e, s), events, s).Some? && NoGrants(events) ==>
               Total(After(Next(x, e, s), events, s).value.books.pending) <= e.budget)
            <==> SumAmounts(CreditsOf(x, e, s)) <= e.budget - Exposure(x)
  {
    hide After, Credits.Inv, NoGrants, CreditsOf, Granted, FullShares;
    DiscoveryAddsCredits(x, e, s);
    WithinBudgetExactlyWhen(Next(x, e, s), s, e.budget);
  }

  // ----- Two runs that exceed the budget -----

  /** Two discoveries of 40 on a budget of 40 with `between` in the middle and `last` at the end. */
  function TwoDiscoveries(between: Credits.Step, last: Credits.Step): seq<Event> {
    var e := Discover(40.0, 40.0, 1.0, [], "miner");
    [e, Move(between), e, Move(last)]
  }

  /** A bridge that fails after its headroom was used again lifts the liability over the budget. */
  lemma RefundCanExceedBudget()
    ensures var s, events := Settings(1.0, 20.0), TwoDiscoveries(Request(1, "miner", 32.0), Fail(1));
            After(NEW_BRIDGE, events, s).Some? && Total(After(NEW_BRIDGE, events, s).value.books.pending) == 64.0
  {
    RunTwo(Request(1, "miner", 32.0), Fail(1));
  }

  /** So does a reboot that returns what was spent, with no bridge ever open. */
  lemma RebootCanExceedBudget()
    ensures var s, events := Settings(1.0, 20.0), TwoDiscoveries(SpendSome("miner", 32.0), Reboot);
            After(NEW_BRIDGE, events, s).Some? && Total(After(NEW_BRIDGE, events, s).value.books.pending) == 64.0
  {
    RunTwo(SpendSome("miner", 32.0), Reboot);
  }

  lemma RunTwo(between: Credits.Step, last: Credits.Step)
    requires (between == Request(1, "miner", 32.0) && last == Fail(1))
             || (between == SpendSome("miner", 32.0) && last == Reboot)
    ensures var s, events := Settings(1.0, 20.0), TwoDiscoveries(between, last);
            After(NEW_BRIDGE, events, s).Some? && Total(After(NEW_BRIDGE, events, s).value.books.pending) == 64.0
  {
    hide After, Credits.Inv, Exposure, Next, Apply;
    var s, e := Settings(1.0, 20.0), Discover(40.0, 40.0, 1.0, [], "miner");
    NewBridgeExposure();
    FullYield(NEW_BRIDGE, s);
    var x1 := Next(NEW_BRIDGE, e, s);
    TakesAll(x1, between);
    MoveKeepsExposure(x1, between);
    var x2 := Apply(x1, between);
    FullYield(x2, s);
    var x3 := Next(x2, e, s);
    AllBack(x3, between, last);
    MoveIsStep(x1, between, s);
    MoveIsStep(x3, last, s);
    FourEvents(e, Move(between), Move(last), x2, s);
  }

  lemma MoveIsStep(x: Bridge, step: Credits.Step, s: Settings)
    requires ValidSettings(s) && !step.Grant? && Credits.Enabled(x, step)
    ensures Possible(x, Move(step), s) && Next(x, Move(step), s) == Apply(x, step)
  {
  }

  lemma FourEvents(e: Event, between: Event, last: Event, x2: Bridge, s: Settings)
    requires ValidSettings(s) && Possible(NEW_BRIDGE, e, s) && Possible(Next(NEW_BRIDGE, e, s), between, s)
    requires x2 == Next(Next(NEW_BRIDGE, e, s), between, s) && Possible(x2, e, s) && Possible(Next(x2, e, s), last, s)
    ensures After(NEW_BRIDGE, [e, between, e, last], s) == Some(Next(Next(x2, e, s), last, s))
  {
    hide Possible, Next;
    assert [e, between, e, last][..3] == [e, between, e] && [e, between, e][..2] == [e, between];
    assert [e, between][..1] == [e] && [e][..0] == [];
    assert After(NEW_BRIDGE, [e], s) == Some(Next(NEW_BRIDGE, e, s));
    assert After(NEW_BRIDGE, [e, between], s) == Some(x2);
  }

  lemma TakesAll(x: Bridge, between: Credits.Step)
    requires x.books.pending == map["miner" := 32.0] && x.inFlight == map[] && x.spent == map[]
    requires between == Request(1, "miner", 32.0) || between == SpendSome("miner", 32.0)
    ensures Credits.Enabled(x, between) && Apply(x, between).books.pending == map[]
    ensures between.Request? ==> Apply(x, between).inFlight == map[1 := Payout("miner", 32.0)] && Apply(x, between).spent == map[]
    ensures between.SpendSome? ==> Apply(x, between).inFlight == map[] && Apply(x, between).spent == map["miner" := 32.0]
  {
  }

  lemma AllBack(x: Bridge, between: Credits.Step, last: Credits.Step)
    requires Credits.Inv(x) && x.books.pending == map["miner" := 32.0]
    requires between.Request? ==> last == Fail(1) && x.inFlight == map[1 := Payout("miner", 32.0)] && x.spent == map[]
    requires !between.Request? ==> last == Reboot && x.inFlight == map[] && x.spent == map["miner" := 32.0]
    ensures Credits.Enabled(x, last) && Total(Apply(x, last).books.pending) == 64.0
  {
    hide Credits.Inv, Restored;
    CreditTotal(map[], "miner", 32.0);
    assert Credit(map[], "miner", 32.0) == map["miner" := 32.0];
    if last.Reboot? {
      RebootTotal(x);
    } else {
      CreditTotal(x.books.pending, "miner", 32.0);
    }
  }

  lemma FullYield(x: Bridge, s: Settings)
    requires s == Settings(1.0, 20.0) && x.books.pending == map[] && Credits.Inv(x)
    ensures var e := Discover(40.0, 40.0, 1.0, [], "miner");
            && Possible(x, e, s) && Next(x, e, s).books.pending == map["miner" := 32.0]
            && Next(x, e, s).inFlight == x.inFlight && Next(x, e, s).spent == x.spent && Credits.Inv(Next(x, e, s))
  {
    hide Credits.Inv, Granted;
    var e := Discover(40.0, 40.0, 1.0, [], "miner");
    assert Total(x.books.pending) == 0.0;
    assert BackingScale(40.0, 1.0, 0.0) == 1.0;
    assert Issued(x, 40.0, 40.0, 1.0, s) == 40.0;
    assert VaultCut(40.0, 20.0) == 8.0;
    var paid := [Payout("miner", 32.0)];
    assert CreditsOf(x, e, s) == paid;
    GrantedCredits(x, paid);
    assert paid[..0] == [] && CreditPayouts(x.books.pending, []) == map[];
    assert CreditPayouts(x.books.pending, paid) == Credit(map[], "miner", 32.0);
  }
}
