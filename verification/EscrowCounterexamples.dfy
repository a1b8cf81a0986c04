/** Two runs of the escrow in which a rent burn takes what backs other wagers. */
module EscrowCounterexamples {
  import opened Prelude
  import opened Settlement
  import opened Outbox
  import opened EscrowTreasury

  // ----- Wagers of 100, and moving them along -----

  function RefundLegs(id: WagerId): seq<Leg> {
    [Leg(Return, id, 100.0, false)]
  }

  /** A wager about to be refunded. */
  function Refunding(id: WagerId): Wager {
    var record := Some(Record(id, 100.0, Settling, RefundLegs(id), 0));
    Wager(id, id, 100.0, record, record, Calling(0), false, RefundLegs(id), [0], [0], 0.0, 0.0, 1, 0)
  }

  function ActiveWager(id: WagerId): Wager {
    var record := Some(Record(id, 100.0, Active, [], 0));
    Deposited(id, id, 100.0).(mem := record, store := record, at := Idle)
  }

  predicate IsLocal(e: Event) {
    !e.Land? && !e.LandThenThrow? && !e.Crash?
  }

  /** One wager makes a step that moves no tokens. */
  lemma LocalStep(s0: System, actions: seq<Action>, s: System, id: WagerId, e: Event, w: Wager, maxRetries: nat)
    requires ActAll(s0, actions, 1.0, maxRetries) == Some(s) && id in s.wagers && IsLocal(e)
    requires Enabled(s.wagers[id], e) && Step(s.wagers[id], e, maxRetries) == w
    ensures ActAll(s0, actions + [Local(id, e)], 1.0, maxRetries)
            == Some(s.(wagers := s.wagers[id := w], quotes := s.quotes - {id}))
  {
    hide ActAll, Step, Enabled;
    OneMoreAction(s0, actions, s, Local(id, e), 1.0, maxRetries);
  }

  lemma BookSteps(id: WagerId, maxRetries: nat)
    ensures var w := Deposited(id, id, 100.0);
            && Enabled(w, Book) && Enabled(Step(w, Book, maxRetries), Put)
            && Step(Step(w, Book, maxRetries), Put, maxRetries) == ActiveWager(id)
  {
  }

  lemma BookDeposit(s0: System, actions: seq<Action>, s: System, id: WagerId, maxRetries: nat)
    returns (longer: seq<Action>)
    requires ActAll(s0, actions, 1.0, maxRetries) == Some(s) && id !in s.wagers && id !in s.quotes && id !in s.used
    ensures ActAll(s0, longer, 1.0, maxRetries)
            == Some(s.(wagers := s.wagers[id := ActiveWager(id)], balance := s.balance + 100.0, used := s.used + {id}))
  {
    hide ActAll, Step, Enabled, ActiveWager;
    assert Raw(100.0, 1.0) == 100.0;
    BookSteps(id, maxRetries);
    var w := Deposited(id, id, 100.0);
    var booked := Step(w, Book, maxRetries);
    var s1 := s.(wagers := s.wagers[id := w], balance := s.balance + 100.0, used := s.used + {id});
    OneMoreAction(s0, actions, s, Deposit(id, id, 100.0, id), 1.0, maxRetries);
    longer := actions + [Deposit(id, id, 100.0, id)];
    LocalStep(s0, longer, s1, id, Book, booked, maxRetries);
    longer := longer + [Local(id, Book)];
    assert s1.quotes - {id} == s1.quotes;
    LocalStep(s0, longer, s1.(wagers := s1.wagers[id := booked]), id, Put, ActiveWager(id), maxRetries);
    longer := longer + [Local(id, Put)];
    assert s1.wagers[id := booked][id := ActiveWager(id)] == s.wagers[id := ActiveWager(id)];
  }

  lemma TotalOfTwo(m: map<WagerId, real>, a: WagerId, b: WagerId)
    requires a != b && m.Keys == {a, b}
    ensures Total(m) == m[a] + m[b]
  {
    TotalRemove(m, a);
    TotalRemove(m - {a}, b);
    assert m - {a} - {b} == map[];
  }

  // ----- The first transfer after a reboot -----

  function DownWager(id: WagerId): Wager {
    ActiveWager(id).(mem := None, at := Down, crashes := 1)
  }

  lemma CrashOfActive(id: WagerId, maxRetries: nat)
    ensures Step(ActiveWager(id), Crash, maxRetries) == DownWager(id)
    ensures Owed(ActiveWager(id), 1.0) == Owed(DownWager(id), 1.0) == 100.0
    ensures CrashDebt(ActiveWager(id), 1.0, maxRetries) == 0.0
  {
    assert Raw(100.0, 1.0) == 100.0;
  }

  /** Two booked wagers of 100 and a balance of exactly 200, after a crash. */
  function AfterCrash(a: WagerId, b: WagerId): System {
    System(map[a := DownWager(a), b := DownWager(b)], 200.0, map[], 0.0, {a, b})
  }

  lemma CrashOfTwo(s: System, a: WagerId, b: WagerId, maxRetries: nat)
    requires a != b && s == System(map[a := ActiveWager(a), b := ActiveWager(b)], 200.0, map[], 0.0, {a, b})
    ensures Act(s, PowerLoss, 1.0, maxRetries) == AfterCrash(a, b)
  {
    hide Step, Owed, CrashDebt;
    CrashOfActive(a, maxRetries);
    CrashOfActive(b, maxRetries);
    TotalOfTwo(CrashDebts(s.wagers, 1.0, maxRetries), a, b);
    assert Crashed(s.wagers, maxRetries) == AfterCrash(a, b).wagers;
  }

  lemma CrashWithTwoWagers(a: WagerId, b: WagerId, maxRetries: nat) returns (actions: seq<Action>)
    requires a != b
    ensures ActAll(EmptyEscrow(0.0), actions, 1.0, maxRetries) == Some(AfterCrash(a, b))
  {
    hide Act, ActiveWager, AfterCrash;
    var s0 := EmptyEscrow(0.0);
    actions := BookDeposit(s0, [], s0, a, maxRetries);
    assert s0.used + {a} == {a} && {a} + {b} == {a, b};
    actions := BookDeposit(s0, actions, s0.(wagers := s0.wagers[a := ActiveWager(a)], balance := 100.0, used := {a}), b, maxRetries);
    var s := System(map[a := ActiveWager(a), b := ActiveWager(b)], 200.0, map[], 0.0, {a, b});
    assert s.wagers == s0.wagers[a := ActiveWager(a)][b := ActiveWager(b)];
    CrashOfTwo(s, a, b, maxRetries);
    OneMoreAction(s0, actions, s, PowerLoss, 1.0, maxRetries);
    actions := actions + [PowerLoss];
  }

  /** The refund leg of wager `a` about to be paid while `b` is still only in the store. */
  function RefundingFirst(a: WagerId, b: WagerId): System {
    AfterCrash(a, b).(wagers := AfterCrash(a, b).wagers[a := Refunding(a)])
  }

  lemma LoadSteps(id: WagerId, maxRetries: nat)
    ensures var w := DownWager(id);
            && Enabled(w, Load) && Enabled(Step(w, Load, maxRetries), Put)
            && Step(Step(w, Load, maxRetries), Put, maxRetries) == Refunding(id)
  {
    ForfeitAndRefundAreExact(WagerEntry(id, id, 100.0));
    assert Zeros(1) == [0];
  }

  lemma LoadFirst(a: WagerId, b: WagerId, maxRetries: nat) returns (actions: seq<Action>)
    requires a != b
    ensures ActAll(EmptyEscrow(0.0), actions, 1.0, maxRetries) == Some(RefundingFirst(a, b))
  {
    hide ActAll, Step, Enabled, Refunding, DownWager;
    var s0, s := EmptyEscrow(0.0), AfterCrash(a, b);
    actions := CrashWithTwoWagers(a, b, maxRetries);
    LoadSteps(a, maxRetries);
    var loaded := Step(DownWager(a), Load, maxRetries);
    LocalStep(s0, actions, s, a, Load, loaded, maxRetries);
    actions := actions + [Local(a, Load)];
    var s1 := s.(wagers := s.wagers[a := loaded]);
    assert s.quotes - {a} == s.quotes;
    LocalStep(s0, actions, s1, a, Put, Refunding(a), maxRetries);
    actions := actions + [Local(a, Put)];
    assert s1.wagers[a := Refunding(a)] == RefundingFirst(a, b).wagers;
  }

  /** The first refund has read the balance and only its own record's liability. */
  function BurnDecided(a: WagerId, b: WagerId): System {
    RefundingFirst(a, b).(quotes := map[a := Sent(5.0)])
  }

  lemma FirstRefundDecidesToBurn(a: WagerId, b: WagerId, maxRetries: nat) returns (actions: seq<Action>)
    requires a != b
    ensures ActAll(EmptyEscrow(0.0), actions, 1.0, maxRetries) == Some(BurnDecided(a, b))
  {
    hide ActAll, Step, Owed, Enabled;
    var s0, s := EmptyEscrow(0.0), RefundingFirst(a, b);
    actions := LoadFirst(a, b, maxRetries);
    OneMoreAction(s0, actions, s, Begin(a), 1.0, maxRetries);
    actions := actions + [Begin(a)];
    var s1 := Act(s, Begin(a), 1.0, maxRetries);
    TotalOfTwo(LiabilityMap(s1.wagers), a, b);
    assert Raw(100.0, 1.0) == 100.0;
    assert RentBurn(true, true, 5.0, 200.0, 100.0, 100.0) == 5.0;
    OneMoreAction(s0, actions, s1, Send(a, 5.0), 1.0, maxRetries);
    actions := actions + [Send(a, 5.0)];
    assert Act(s1, Send(a, 5.0), 1.0, maxRetries) == BurnDecided(a, b);
  }

  /** A refund that lands leaves nothing owed. */
  lemma RefundLands(id: WagerId, maxRetries: nat)
    ensures Enabled(Refunding(id), Land) && LegRaw(Refunding(id), 1.0) == 100.0
    ensures Step(Refunding(id), Land, maxRetries) == Refunding(id).(at := Landed(0), landed := [1], moved := 100.0)
    ensures Owed(Refunding(id).(at := Landed(0), landed := [1], moved := 100.0), 1.0) == 0.0
    ensures LiabilityOf(Refunding(id)) == 100.0
  {
    assert Raw(100.0, 1.0) == 100.0;
    NothingUndone(RefundLegs(id), 1, 1.0);
  }

  /**
   * Without that condition solvency is lost: on boot the first refund runs before the other
   * records are loaded, takes their deposits for surplus and burns from them. No confirmation
   * is lost and no two calls overlap.
   */
  lemma BootRefundCanBurnBacking(a: WagerId, b: WagerId, maxRetries: nat) returns (actions: seq<Action>)
    requires a != b
    ensures ActAll(EmptyEscrow(0.0), actions, 1.0, maxRetries).Some?
    ensures var s := ActAll(EmptyEscrow(0.0), actions, 1.0, maxRetries).value;
            s.reopened == 0.0 && s.balance == 95.0 && TotalOwed(s.wagers, 1.0) == 100.0
  {
    hide ActAll;
    var s0, s := EmptyEscrow(0.0), BurnDecided(a, b);
    actions := FirstRefundDecidesToBurn(a, b, maxRetries);
    RefundLands(a, maxRetries);
    CrashOfActive(b, maxRetries);
    hide Step, Enabled, Owed, LegRaw, Refunding, DownWager;
    OneMoreAction(s0, actions, s, Confirm(a, true), 1.0, maxRetries);
    actions := actions + [Confirm(a, true)];
    var s' := Act(s, Confirm(a, true), 1.0, maxRetries);
    TotalOfTwo(OwedMap(s'.wagers, 1.0), a, b);
  }

  // ----- Two overlapping transfers -----

  lemma TotalOfThree(m: map<WagerId, real>, a: WagerId, b: WagerId, c: WagerId)
    requires a != b && b != c && a != c && m.Keys == {a, b, c}
    ensures Total(m) == m[a] + m[b] + m[c]
  {
    TotalRemove(m, a);
    TotalOfTwo(m - {a}, b, c);
  }

  lemma SettleSteps(id: WagerId, maxRetries: nat)
    ensures var w, e := ActiveWager(id), Settle(RefundPlan(WagerEntry(id, id, 100.0)));
            && Enabled(w, e) && Enabled(Step(w, e, maxRetries), Put)
            && Step(Step(w, e, maxRetries), Put, maxRetries) == Refunding(id)
  {
    ForfeitAndRefundAreExact(WagerEntry(id, id, 100.0));
    assert Zeros(1) == [0];
  }

  /** A booked wager's refund begins. */
  lemma StartRefund(s0: System, actions: seq<Action>, s: System, id: WagerId, maxRetries: nat) returns (longer: seq<Action>)
    requires ActAll(s0, actions, 1.0, maxRetries) == Some(s)
    requires id in s.wagers && s.wagers[id] == ActiveWager(id) && id !in s.quotes
    ensures ActAll(s0, longer, 1.0, maxRetries) == Some(s.(wagers := s.wagers[id := Refunding(id)]))
  {
    hide ActAll, Step, Enabled, Refunding, ActiveWager;
    SettleSteps(id, maxRetries);
    var e := Settle(RefundPlan(WagerEntry(id, id, 100.0)));
    var planned := Step(ActiveWager(id), e, maxRetries);
    LocalStep(s0, actions, s, id, e, planned, maxRetries);
    longer := actions + [Local(id, e)];
    assert s.quotes - {id} == s.quotes;
    LocalStep(s0, longer, s.(wagers := s.wagers[id := planned]), id, Put, Refunding(id), maxRetries);
    longer := longer + [Local(id, Put)];
    assert s.wagers[id := planned][id := Refunding(id)] == s.wagers[id := Refunding(id)];
  }

  function Refunded(id: WagerId): Wager {
    Refunding(id).(mem := None, store := None, at := Over, landed := [1], moved := 100.0)
  }

  lemma CloseSteps(id: WagerId, maxRetries: nat)
    ensures var w := Refunding(id).(at := Landed(0), landed := [1], moved := 100.0);
            && Enabled(w, MarkDone) && Enabled(Step(w, MarkDone, maxRetries), Put)
            && var w2 := Step(Step(w, MarkDone, maxRetries), Put, maxRetries);
               Enabled(w2, Put) && Step(w2, Put, maxRetries) == Refunded(id)
    ensures Owed(Refunded(id), 1.0) == LiabilityOf(Refunded(id)) == 0.0
  {
  }

  /** A landed refund is marked, saved and dropped. */
  lemma CloseRefund(s0: System, actions: seq<Action>, s: System, id: WagerId, maxRetries: nat) returns (longer: seq<Action>)
    requires ActAll(s0, actions, 1.0, maxRetries) == Some(s)
    requires id in s.wagers && s.wagers[id] == Refunding(id).(at := Landed(0), landed := [1], moved := 100.0) && id !in s.quotes
    ensures ActAll(s0, longer, 1.0, maxRetries) == Some(s.(wagers := s.wagers[id := Refunded(id)]))
  {
    hide ActAll, Step, Enabled, Refunding, Refunded;
    CloseSteps(id, maxRetries);
    var w1 := Step(s.wagers[id], MarkDone, maxRetries);
    var w2 := Step(w1, Put, maxRetries);
    assert s.quotes - {id} == s.quotes;
    LocalStep(s0, actions, s, id, MarkDone, w1, maxRetries);
    longer := actions + [Local(id, MarkDone)];
    var s1 := s.(wagers := s.wagers[id := w1]);
    LocalStep(s0, longer, s1, id, Put, w2, maxRetries);
    longer := longer + [Local(id, Put)];
    var s2 := s.(wagers := s.wagers[id := w2]);
    assert s1.wagers[id := w2] == s2.wagers;
    LocalStep(s0, longer, s2, id, Put, Refunded(id), maxRetries);
    longer := longer + [Local(id, Put)];
    assert s2.wagers[id := Refunded(id)] == s.wagers[id := Refunded(id)];
  }

  /** Two refunds are about to be called, a third wager is riding, and everything is backed exactly. */
  function TwoRefunds(a: WagerId, b: WagerId, c: WagerId): System {
    System(map[a := Refunding(a), b := Refunding(b), c := ActiveWager(c)], 300.0, map[], 0.0, {a, b, c})
  }

  lemma BookThree(a: WagerId, b: WagerId, c: WagerId, maxRetries: nat) returns (actions: seq<Action>)
    requires a != b && b != c && a != c
    ensures ActAll(EmptyEscrow(0.0), actions, 1.0, maxRetries)
            == Some(System(map[a := ActiveWager(a), b := ActiveWager(b), c := ActiveWager(c)], 300.0, map[], 0.0, {a, b, c}))
  {
    hide *;
    var s0 := EmptyEscrow(0.0);
    EmptyIs();
    StartOfRun(s0, maxRetries);
    actions := BookDeposit(s0, [], s0, a, maxRetries);
    var s1 := System(map[a := ActiveWager(a)], 100.0, map[], 0.0, {a});
    assert {} + {a} == {a} && {a} + {b} == {a, b} && {a, b} + {c} == {a, b, c};
    actions := BookDeposit(s0, actions, s1, b, maxRetries);
    var s2 := System(map[a := ActiveWager(a), b := ActiveWager(b)], 200.0, map[], 0.0, {a, b});
    assert s2.wagers == s1.wagers[b := ActiveWager(b)];
    actions := BookDeposit(s0, actions, s2, c, maxRetries);
    assert s2.wagers[c := ActiveWager(c)] == map[a := ActiveWager(a), b := ActiveWager(b), c := ActiveWager(c)];
  }

  lemma EmptyIs()
    ensures EmptyEscrow(0.0) == System(map[], 0.0, map[], 0.0, {})
  {
  }

  lemma StartTwo(a: WagerId, b: WagerId, c: WagerId, maxRetries: nat) returns (actions: seq<Action>)
    requires a != b && b != c && a != c
    ensures ActAll(EmptyEscrow(0.0), actions, 1.0, maxRetries) == Some(TwoRefunds(a, b, c))
  {
    hide ActAll, ActiveWager, Refunding, EmptyEscrow;
    actions := BookThree(a, b, c, maxRetries);
    var s := System(map[a := ActiveWager(a), b := ActiveWager(b), c := ActiveWager(c)], 300.0, map[], 0.0, {a, b, c});
    actions := StartRefund(EmptyEscrow(0.0), actions, s, a, maxRetries);
    var s1 := System(map[a := Refunding(a), b := ActiveWager(b), c := ActiveWager(c)], 300.0, map[], 0.0, {a, b, c});
    assert s.wagers[a := Refunding(a)] == s1.wagers;
    actions := StartRefund(EmptyEscrow(0.0), actions, s1, b, maxRetries);
    assert s1.wagers[b := Refunding(b)] == TwoRefunds(a, b, c).wagers;
  }

  lemma StartOfRun(s: System, maxRetries: nat)
    ensures ActAll(s, [], 1.0, maxRetries) == Some(s)
  {
  }

  lemma RefundingFacts(id: WagerId)
    ensures Refunding(id).at.Calling? && LegRaw(Refunding(id), 1.0) == 100.0 && !LegIsBurn(Refunding(id))
    ensures ActiveWager(id).at.Idle? && LiabilityOf(ActiveWager(id)) == Owed(ActiveWager(id), 1.0) == 100.0
  {
    assert Raw(100.0, 1.0) == 100.0;
  }

  /** The first refund has read the balance of 300, and the second has been paid and closed since. */
  function PaidBetween(a: WagerId, b: WagerId, c: WagerId): System {
    System(map[a := Refunding(a), b := Refunded(b), c := ActiveWager(c)], 200.0, map[a := Read(300.0)], 0.0, {a, b, c})
  }

  lemma ReadBoth(a: WagerId, b: WagerId, c: WagerId, maxRetries: nat) returns (actions: seq<Action>)
    requires a != b && b != c && a != c
    ensures ActAll(EmptyEscrow(0.0), actions, 1.0, maxRetries)
            == Some(TwoRefunds(a, b, c).(quotes := map[a := Read(300.0), b := Read(300.0)]))
  {
    hide ActAll, ActiveWager, Refunding, LegRaw, LegIsBurn, Step, Enabled;
    var s0, s := EmptyEscrow(0.0), TwoRefunds(a, b, c);
    actions := StartTwo(a, b, c, maxRetries);
    RefundingFacts(a);
    RefundingFacts(b);
    OneMoreAction(s0, actions, s, Begin(a), 1.0, maxRetries);
    var s1 := s.(quotes := map[a := Read(300.0)]);
    assert Act(s, Begin(a), 1.0, maxRetries) == s1;
    OneMoreAction(s0, actions + [Begin(a)], s1, Begin(b), 1.0, maxRetries);
    actions := actions + [Begin(a)] + [Begin(b)];
    assert s1.quotes[b := Read(300.0)] == map[a := Read(300.0), b := Read(300.0)];
  }

  /** A refund that creates no account is sent, lands and is closed while another has only read the balance. */
  lemma PayPlainly(s0: System, actions: seq<Action>, s: System, id: WagerId, maxRetries: nat) returns (longer: seq<Action>)
    requires ActAll(s0, actions, 1.0, maxRetries) == Some(s) && s.balance >= 100.0
    requires id in s.wagers && s.wagers[id] == Refunding(id) && id in s.quotes && s.quotes[id].Read?
    requires s.quotes[id].balance >= 100.0
    ensures ActAll(s0, longer, 1.0, maxRetries)
            == Some(System(s.wagers[id := Refunded(id)], s.balance - 100.0, s.quotes - {id}, s.reopened, s.used))
  {
    hide ActAll, Refunding, Refunded, LegRaw, LegIsBurn, Step, Enabled;
    RefundingFacts(id);
    RefundLands(id, maxRetries);
    OneMoreAction(s0, actions, s, Send(id, 0.0), 1.0, maxRetries);
    var s1 := s.(quotes := s.quotes[id := Sent(0.0)]);
    OneMoreAction(s0, actions + [Send(id, 0.0)], s1, Confirm(id, true), 1.0, maxRetries);
    var s2 := Act(s1, Confirm(id, true), 1.0, maxRetries);
    longer := CloseRefund(s0, actions + [Send(id, 0.0)] + [Confirm(id, true)], s2, id, maxRetries);
    assert s1.quotes - {id} == s.quotes - {id};
    assert s2.wagers[id := Refunded(id)] == s.wagers[id := Refunded(id)];
  }

  lemma PayBetween(a: WagerId, b: WagerId, c: WagerId, maxRetries: nat) returns (actions: seq<Action>)
    requires a != b && b != c && a != c
    ensures ActAll(EmptyEscrow(0.0), actions, 1.0, maxRetries) == Some(PaidBetween(a, b, c))
  {
    hide ActAll, ActiveWager, Refunding, Refunded, EmptyEscrow;
    actions := ReadBoth(a, b, c, maxRetries);
    var s := TwoRefunds(a, b, c).(quotes := map[a := Read(300.0), b := Read(300.0)]);
    actions := PayPlainly(EmptyEscrow(0.0), actions, s, b, maxRetries);
    assert s.wagers[b := Refunded(b)] == PaidBetween(a, b, c).wagers;
    assert s.quotes - {b} == map[a := Read(300.0)];
  }

  /**
   * Overlapping transfers do it too, with every record loaded, no crash and no lost confirmation: the first
   * refund decides on the balance it read before the second was paid, and on the liability left after it.
   */
  lemma OverlappingRefundsCanBurnBacking(a: WagerId, b: WagerId, c: WagerId, maxRetries: nat) returns (actions: seq<Action>)
    requires a != b && b != c && a != c
    ensures ActAll(EmptyEscrow(0.0), actions, 1.0, maxRetries).Some?
    ensures var s := ActAll(EmptyEscrow(0.0), actions, 1.0, maxRetries).value;
            && s.reopened == 0.0 && s.balance == 95.0 && TotalOwed(s.wagers, 1.0) == 100.0
            && AllLoaded(s.wagers) && forall id :: id in s.wagers ==> s.wagers[id].crashes == 0
  {
    hide ActAll, Step, Enabled, Owed, LiabilityOf, LegRaw, LegIsBurn, Refunding, Refunded, ActiveWager;
    var s0, s := EmptyEscrow(0.0), PaidBetween(a, b, c);
    actions := PayBetween(a, b, c, maxRetries);
    RefundingFacts(a);
    RefundingFacts(c);
    RefundLands(a, maxRetries);
    CloseSteps(b, maxRetries);
    BurnPassesGuard(a, b, c);
    OneMoreAction(s0, actions, s, Send(a, 5.0), 1.0, maxRetries);
    actions := actions + [Send(a, 5.0)];
    var s1 := Act(s, Send(a, 5.0), 1.0, maxRetries);
    OneMoreAction(s0, actions, s1, Confirm(a, true), 1.0, maxRetries);
    actions := actions + [Confirm(a, true)];
    var s2 := Act(s1, Confirm(a, true), 1.0, maxRetries);
    TotalOfThree(OwedMap(s2.wagers, 1.0), a, b, c);
    NothingCrashed(a, b, c, s2.wagers);
  }

  lemma NothingCrashed(a: WagerId, b: WagerId, c: WagerId, wagers: map<WagerId, Wager>)
    requires wagers.Keys == {a, b, c} && wagers[a] == Refunding(a).(at := Landed(0), landed := [1], moved := 100.0)
    requires wagers[b] == Refunded(b) && wagers[c] == ActiveWager(c)
    ensures AllLoaded(wagers) && forall id :: id in wagers ==> wagers[id].crashes == 0
  {
  }

  lemma BurnPassesGuard(a: WagerId, b: WagerId, c: WagerId)
    requires a != b && b != c && a != c
    ensures Possible(PaidBetween(a, b, c), Send(a, 5.0), 1.0)
  {
    hide Owed, LiabilityOf, LegRaw, LegIsBurn, Refunding, Refunded, ActiveWager;
    RefundingFacts(a);
    RefundingFacts(c);
    RefundLands(a, 0);
    CloseSteps(b, 0);
    TotalOfThree(LiabilityMap(PaidBetween(a, b, c).wagers), a, b, c);
    assert Raw(200.0, 1.0) == 200.0;
    assert RentBurn(true, true, 5.0, 300.0, 100.0, 200.0) == 5.0;
  }

  // ----- One transaction, two wagers -----

  /** Two wagers accepted on one transaction: the escrow has gained 100 and owes 200. */
  lemma OneTransactionTwoWagers(a: WagerId, b: WagerId, signature: Signature, maxRetries: nat)
    requires a != b
    ensures var actions := [Deposit(a, a, 100.0, signature), Deposit(b, a, 100.0, signature)];
            && ActAll(EmptyEscrow(0.0), actions, 1.0, maxRetries).Some?
            && var s := ActAll(EmptyEscrow(0.0), actions, 1.0, maxRetries).value;
               s.balance == 100.0 && TotalOwed(s.wagers, 1.0) == 200.0 && s.reopened == 0.0
  {
    hide ActAll, Owed;
    var s0, first, second := EmptyEscrow(0.0), Deposit(a, a, 100.0, signature), Deposit(b, a, 100.0, signature);
    assert Raw(100.0, 1.0) == 100.0;
    StartOfRun(s0, maxRetries);
    OneMoreAction(s0, [], s0, first, 1.0, maxRetries);
    var s1 := Act(s0, first, 1.0, maxRetries);
    OneMoreAction(s0, [] + [first], s1, second, 1.0, maxRetries);
    var s2 := Act(s1, second, 1.0, maxRetries);
    assert [] + [first] + [second] == [first, second];
    FreshDeposit(a, a, 100.0, 1.0, maxRetries);
    FreshDeposit(b, a, 100.0, 1.0, maxRetries);
    TotalOfTwo(OwedMap(s2.wagers, 1.0), a, b);
  }
}
