/** The credit ledger: pending yield, its audit log, and bridging credits to the chain. */
module Credits {
  import opened Prelude

  /** An audit event: positive for a credit, negative for a claim or a redemption. */
  datatype Posting = Posting(wallet: Wallet, delta: real)

  datatype Books = Books(pending: map<Wallet, real>, log: seq<Posting>)

  // ----- Operations -----

  function Add(b: Books, w: Wallet, amount: real): Books {
    Books(Credit(b.pending, w, amount), if amount != 0.0 then b.log + [Posting(w, amount)] else b.log)
  }

  function Claim(b: Books, w: Wallet): Books {
    var amount := Held(b.pending, w);
    Books(b.pending - {w}, if amount > 0.0 then b.log + [Posting(w, -amount)] else b.log)
  }

  predicate Affordable(b: Books, w: Wallet, amount: real) {
    amount > 0.0 && Held(b.pending, w) >= amount
  }

  function Take(pending: map<Wallet, real>, w: Wallet, amount: real): map<Wallet, real> {
    var remaining := Held(pending, w) - amount;
    if remaining > 0.0 then pending[w := remaining] else pending - {w}
  }

  function Redeem(b: Books, w: Wallet, amount: real): Books {
    if Affordable(b, w, amount) then Books(Take(b.pending, w, amount), b.log + [Posting(w, -amount)]) else b
  }

  /** Spending in game leaves no audit event. */
  function Spend(b: Books, w: Wallet, amount: real): Books {
    if Affordable(b, w, amount) then b.(pending := Take(b.pending, w, amount)) else b
  }

  function LogSum(log: seq<Posting>, w: Wallet): real {
    if log == [] then 0.0
    else LogSum(log[..|log| - 1], w) + (if log[|log| - 1].wallet == w then log[|log| - 1].delta else 0.0)
  }

  function Wallets(log: seq<Posting>): set<Wallet> {
    set i | 0 <= i < |log| :: log[i].wallet
  }

  /** Boot: only positive log balances come back. */
  function Restored(b: Books): Books {
    b.(pending := PositiveBalances(b.log, Wallets(b.log)))
  }

  function PositiveBalances(log: seq<Posting>, wallets: set<Wallet>): map<Wallet, real> {
    map w | w in wallets && LogSum(log, w) > 0.0 :: LogSum(log, w)
  }

  lemma OneMoreBalance(log: seq<Posting>, wallets: set<Wallet>, w: Wallet)
    requires w !in wallets
    ensures var before := PositiveBalances(log, wallets);
            && w !in before
            && PositiveBalances(log, wallets + {w}) == if LogSum(log, w) > 0.0 then before[w := LogSum(log, w)] else before
  {
    hide LogSum;
  }

  // ----- Bridging as concurrent steps -----

  type RequestId = int

  /**
   * `inFlight` are debited requests whose chain transfer has not answered; `stranded` is what was in
   * flight when the server stopped. The rest observes: credits granted, delivered on chain, claimed,
   * spent in game since the last boot, and given back by calls that had landed but reported failure.
   */
  datatype Bridge = Bridge(
    books: Books, inFlight: map<RequestId, Payout>,
    granted: map<Wallet, real>, delivered: map<Wallet, real>, claimed: map<Wallet, real>,
    spent: map<Wallet, real>, stranded: map<Wallet, real>, misreported: map<Wallet, real>)

  datatype Step =
    | Grant(wallet: Wallet, amount: real)
    | Request(id: RequestId, wallet: Wallet, amount: real)
    | Land(id: RequestId)
    | Fail(id: RequestId)
    | LandThenFail(id: RequestId)  // the transfer lands, the call throws, the debit is refunded
    | ClaimAll(wallet: Wallet)
    | SpendSome(wallet: Wallet, amount: real)
    | Reboot

  predicate Enabled(s: Bridge, e: Step) {
    match e
    case Grant(w, amount) => amount >= 0.0
    case Request(id, w, amount) => id !in s.inFlight
    case Land(id) => id in s.inFlight
    case Fail(id) => id in s.inFlight
    case LandThenFail(id) => id in s.inFlight
    case _ => true
  }

  function Payees(inFlight: map<RequestId, Payout>): set<Wallet> {
    set id | id in inFlight :: inFlight[id].wallet
  }

  ghost function InFlightOf(inFlight: map<RequestId, Payout>, w: Wallet): real {
    Total(map id | id in inFlight && inFlight[id].wallet == w :: inFlight[id].amount)
  }

  ghost function Apply(s: Bridge, e: Step): Bridge
    requires Enabled(s, e)
  {
    match e
    case Grant(w, amount) => s.(books := Add(s.books, w, amount), granted := Credit(s.granted, w, amount))
    case Request(id, w, amount) =>
      if Affordable(s.books, w, amount)
      then s.(books := Redeem(s.books, w, amount), inFlight := s.inFlight[id := Payout(w, amount)]) else s
    case Land(id) =>
      s.(inFlight := s.inFlight - {id}, delivered := Credit(s.delivered, s.inFlight[id].wallet, s.inFlight[id].amount))
    case Fail(id) =>
      s.(inFlight := s.inFlight - {id}, books := Add(s.books, s.inFlight[id].wallet, s.inFlight[id].amount))
    case LandThenFail(id) =>
      var p := s.inFlight[id];
      s.(inFlight := s.inFlight - {id}, books := Add(s.books, p.wallet, p.amount),
         delivered := Credit(s.delivered, p.wallet, p.amount), misreported := Credit(s.misreported, p.wallet, p.amount))
    case ClaimAll(w) =>
      s.(books := Claim(s.books, w), claimed := Credit(s.claimed, w, Held(s.books.pending, w)))
    case SpendSome(w, amount) =>
      if Affordable(s.books, w, amount)
      then s.(books := Spend(s.books, w, amount), spent := Credit(s.spent, w, amount)) else s
    case Reboot =>
      s.(books := Restored(s.books), inFlight := map[], spent := map[],
         stranded := map w | w in s.stranded.Keys + Payees(s.inFlight)
                     :: Held(s.stranded, w) + InFlightOf(s.inFlight, w))
  }

  ghost function Run(s: Bridge, steps: seq<Step>): Option<Bridge> {
    if steps == [] then Some(s)
    else
      var before := Run(s, steps[..|steps| - 1]);
      var e := steps[|steps| - 1];
      if before.Some? && Enabled(before.value, e) then Some(Apply(before.value, e)) else None
  }

  const NEW_BRIDGE := Bridge(Books(map[], []), map[], map[], map[], map[], map[], map[], map[])

  // ----- The invariant, wallet by wallet -----

  /** The audit log is short of the balance by exactly what was spent in game since boot. */
  ghost predicate LogAgrees(s: Bridge, w: Wallet) {
    LogSum(s.books.log, w) == Held(s.books.pending, w) + Held(s.spent, w)
  }

  /**
   * Every credit granted, or handed out again by a misreported call, is pending, in flight, delivered, claimed,
   * spent or stranded, and nowhere twice.
   */
  ghost predicate Conserved(s: Bridge, w: Wallet) {
    Held(s.granted, w) + Held(s.misreported, w)
    == Held(s.books.pending, w) + InFlightOf(s.inFlight, w) + Held(s.delivered, w) + Held(s.claimed, w)
       + Held(s.spent, w) + Held(s.stranded, w)
  }

  ghost predicate NonNegativeFor(s: Bridge, w: Wallet) {
    && Held(s.books.pending, w) >= 0.0 && Held(s.delivered, w) >= 0.0 && Held(s.claimed, w) >= 0.0
    && Held(s.spent, w) >= 0.0 && Held(s.stranded, w) >= 0.0 && Held(s.misreported, w) >= 0.0
  }

  ghost predicate Inv(s: Bridge) {
    && (forall w :: WalletInv(s, w))
    && forall id :: id in s.inFlight ==> s.inFlight[id].amount > 0.0
  }

  lemma LogSumMore(log: seq<Posting>, p: Posting, w: Wallet)
    ensures LogSum(log + [p], w) == LogSum(log, w) + (if p.wallet == w then p.delta else 0.0)
  {
    assert (log + [p])[..|log|] == log;
  }

  lemma {:induction false} NoPostings(log: seq<Posting>, w: Wallet)
    requires w !in Wallets(log)
    ensures LogSum(log, w) == 0.0
  {
    if log != [] {
      assert log[|log| - 1].wallet != w;
      NoPostings(log[..|log| - 1], w);
    }
  }

  lemma InFlightMore(inFlight: map<RequestId, Payout>, id: RequestId, p: Payout, w: Wallet)
    requires id !in inFlight
    ensures InFlightOf(inFlight[id := p], w) == InFlightOf(inFlight, w) + (if p.wallet == w then p.amount else 0.0)
  {
    var m := map x | x in inFlight && inFlight[x].wallet == w :: inFlight[x].amount;
    var more := inFlight[id := p];
    var m' := map x | x in more && more[x].wallet == w :: more[x].amount;
    if p.wallet == w {
      assert m' == m[id := p.amount];
      TotalPut(m, id, p.amount);
    } else {
      assert m' == m;
    }
  }

  lemma InFlightLess(inFlight: map<RequestId, Payout>, id: RequestId, w: Wallet)
    requires id in inFlight
    ensures InFlightOf(inFlight - {id}, w)
            == InFlightOf(inFlight, w) - (if inFlight[id].wallet == w then inFlight[id].amount else 0.0)
  {
    InFlightMore(inFlight - {id}, id, inFlight[id], w);
    assert (inFlight - {id})[id := inFlight[id]] == inFlight;
  }

  lemma InFlightPositive(inFlight: map<RequestId, Payout>, w: Wallet)
    requires forall id :: id in inFlight ==> inFlight[id].amount > 0.0
    ensures InFlightOf(inFlight, w) >= 0.0
    ensures w !in Payees(inFlight) ==> InFlightOf(inFlight, w) == 0.0
  {
    var m := map x | x in inFlight && inFlight[x].wallet == w :: inFlight[x].amount;
    forall x | x in m ensures m[x] >= 0.0 {
      assert x in inFlight;
    }
    TotalNonNegative(m);
    if w !in Payees(inFlight) {
      assert forall x :: x in inFlight ==> inFlight[x].wallet in Payees(inFlight);
      assert m == map[];
    }
  }

  /** What an operation on the books does to one wallet's balance and log. */
  lemma BooksMove(b: Books, w: Wallet, amount: real, v: Wallet)
    ensures var moved := if v == w then amount else 0.0;
            && Held(Add(b, w, amount).pending, v) == Held(b.pending, v) + moved
            && LogSum(Add(b, w, amount).log, v) == LogSum(b.log, v) + moved
    ensures var claimed := if v == w then Held(b.pending, v) else 0.0;
            && Held(Claim(b, w).pending, v) == Held(b.pending, v) - claimed
            && (Held(b.pending, w) >= 0.0 ==> LogSum(Claim(b, w).log, v) == LogSum(b.log, v) - claimed)
    ensures Affordable(b, w, amount) ==>
              var moved := if v == w then amount else 0.0;
              && Held(Redeem(b, w, amount).pending, v) == Held(b.pending, v) - moved
              && LogSum(Redeem(b, w, amount).log, v) == LogSum(b.log, v) - moved
              && Held(Spend(b, w, amount).pending, v) == Held(b.pending, v) - moved
              && Spend(b, w, amount).log == b.log
  {
    hide LogSum;
    LogSumMore(b.log, Posting(w, amount), v);
    LogSumMore(b.log, Posting(w, -amount), v);
    LogSumMore(b.log, Posting(w, -Held(b.pending, w)), v);
  }

  lemma RestoredBalance(b: Books, w: Wallet)
    ensures Held(Restored(b).pending, w) == Max(LogSum(b.log, w), 0.0) && Restored(b).log == b.log
  {
    if w !in Wallets(b.log) {
      NoPostings(b.log, w);
    }
  }

  /** The wallet's part of the invariant. */
  ghost predicate WalletInv(s: Bridge, w: Wallet) {
    LogAgrees(s, w) && Conserved(s, w) && NonNegativeFor(s, w)
  }

  lemma BridgeKeepsWallet(s: Bridge, e: Step, v: Wallet)
    requires Inv(s) && Enabled(s, e) && (e.Request? || e.Land?)
    ensures WalletInv(Apply(s, e), v)
  {
    hide LogSum, InFlightOf, Add, Claim, Redeem, Spend;
    assert WalletInv(s, v);
    match e
    case Request(id, w, amount) =>
      BooksMove(s.books, w, amount, v);
      InFlightMore(s.inFlight, id, Payout(w, amount), v);
    case Land(id) =>
      InFlightLess(s.inFlight, id, v);
  }

  /** A failed bridge is refunded, whether it landed or not. */
  lemma RefundKeepsWallet(s: Bridge, e: Step, v: Wallet)
    requires Inv(s) && Enabled(s, e) && (e.Fail? || e.LandThenFail?)
    ensures WalletInv(Apply(s, e), v)
  {
    hide LogSum, InFlightOf, Add, Claim, Redeem, Spend;
    assert WalletInv(s, v);
    BooksMove(s.books, s.inFlight[e.id].wallet, s.inFlight[e.id].amount, v);
    InFlightLess(s.inFlight, e.id, v);
  }

  lemma GameKeepsWallet(s: Bridge, e: Step, v: Wallet)
    requires Inv(s) && Enabled(s, e) && (e.Grant? || e.ClaimAll? || e.SpendSome?)
    ensures WalletInv(Apply(s, e), v)
  {
    hide LogSum, InFlightOf, Add, Claim, Redeem, Spend;
    assert WalletInv(s, v);
    match e
    case Grant(w, amount) => BooksMove(s.books, w, amount, v);
    case ClaimAll(w) =>
      assert WalletInv(s, w);
      BooksMove(s.books, w, 0.0, v);
    case SpendSome(w, amount) => BooksMove(s.books, w, amount, v);
  }

  lemma RebootKeepsWallet(s: Bridge, v: Wallet)
    requires Inv(s)
    ensures WalletInv(Apply(s, Reboot), v)
  {
    hide LogSum, InFlightOf, Restored, Payees;
    assert WalletInv(s, v);
    RestoredBalance(s.books, v);
    InFlightPositive(s.inFlight, v);
    InFlightPositive(map[], v);
    NoPayees();
  }

  lemma NoPayees()
    ensures Payees(map[]) == {}
  {
  }

  lemma ApplyKeepsInv(s: Bridge, e: Step)
    requires Inv(s) && Enabled(s, e)
    ensures Inv(Apply(s, e))
  {
    hide WalletInv, InFlightOf;
    forall v ensures WalletInv(Apply(s, e), v) {
      match e
      case Reboot => RebootKeepsWallet(s, v);
      case Request(_, _, _) => BridgeKeepsWallet(s, e, v);
      case Land(_) => BridgeKeepsWallet(s, e, v);
      case Fail(_) => RefundKeepsWallet(s, e, v);
      case LandThenFail(_) => RefundKeepsWallet(s, e, v);
      case _ => GameKeepsWallet(s, e, v);
    }
  }

  lemma NewBridgeInv()
    ensures Inv(NEW_BRIDGE)
  {
    NoPayees();
    forall w ensures WalletInv(NEW_BRIDGE, w) {
      InFlightPositive(map[], w);
    }
  }

  lemma {:induction false} RunKeepsInv(s: Bridge, steps: seq<Step>)
    requires Inv(s) && Run(s, steps).Some?
    ensures Inv(Run(s, steps).value)
  {
    if steps != [] {
      hide Inv, Apply;
      RunKeepsInv(s, steps[..|steps| - 1]);
      ApplyKeepsInv(Run(s, steps[..|steps| - 1]).value, steps[|steps| - 1]);
    }
  }

  /**
   * In every interleaving of bridge requests, failures, misreported landings, claims, spending and reboots no
   * credit is minted, lost or spent twice but for what misreported calls hand out again, no balance goes negative,
   * and the audit log differs from the balance by exactly the in-game spending since boot.
   */
  lemma CreditsAreConserved(steps: seq<Step>)
    requires Run(NEW_BRIDGE, steps).Some?
    ensures Inv(Run(NEW_BRIDGE, steps).value)
  {
    hide Inv, Run;
    NewBridgeInv();
    RunKeepsInv(NEW_BRIDGE, steps);
  }

  /** What has left the ledger for good or is about to. */
  ghost function Outgoing(s: Bridge, w: Wallet): real {
    Held(s.delivered, w) + InFlightOf(s.inFlight, w) + Held(s.claimed, w)
  }

  /** A wallet never has more delivered, claimed or on its way than it was granted and misreported calls gave back. */
  lemma NoDoubleSpend(steps: seq<Step>, w: Wallet)
    requires Run(NEW_BRIDGE, steps).Some?
    ensures var s := Run(NEW_BRIDGE, steps).value; Outgoing(s, w) <= Held(s.granted, w) + Held(s.misreported, w)
    ensures Reported(steps) ==> Outgoing(Run(NEW_BRIDGE, steps).value, w) <= Held(Run(NEW_BRIDGE, steps).value.granted, w)
  {
    CreditsAreConserved(steps);
    hide Run, InFlightOf, LogSum;
    var s := Run(NEW_BRIDGE, steps).value;
    assert WalletInv(s, w);
    if Reported(steps) {
      ReportedRun(NEW_BRIDGE, steps, w);
    }
  }

  // ----- When a wallet can draw more than it was granted -----

  /** Every call of the run reports what it did. */
  predicate Reported(steps: seq<Step>) {
    forall i :: 0 <= i < |steps| ==> !steps[i].LandThenFail?
  }

  lemma ReportedStep(s: Bridge, e: Step, w: Wallet)
    requires Inv(s) && Enabled(s, e) && !e.LandThenFail?
    ensures Held(Apply(s, e).misreported, w) == Held(s.misreported, w)
    ensures Held(Apply(s, e).stranded, w) >= Held(s.stranded, w)
  {
    hide WalletInv, InFlightOf, Add, Redeem, Claim, Spend, Restored;
    InFlightPositive(s.inFlight, w);
    assert WalletInv(s, w);
    if e.Reboot? {
      StrandedMore(s, w);
    }
  }

  lemma StrandedMore(s: Bridge, w: Wallet)
    requires InFlightOf(s.inFlight, w) >= 0.0 && (w !in Payees(s.inFlight) ==> InFlightOf(s.inFlight, w) == 0.0)
    ensures Held(Apply(s, Reboot).stranded, w) == Held(s.stranded, w) + InFlightOf(s.inFlight, w)
  {
    hide InFlightOf, Restored, Payees;
  }

  lemma {:induction false} ReportedRun(s: Bridge, steps: seq<Step>, w: Wallet)
    requires Inv(s) && Run(s, steps).Some? && Reported(steps)
    ensures Held(Run(s, steps).value.misreported, w) == Held(s.misreported, w)
    ensures Held(Run(s, steps).value.stranded, w) >= Held(s.stranded, w)
  {
    if steps != [] {
      hide Inv, Apply, Enabled;
      var before := steps[..|steps| - 1];
      ReportedRun(s, before, w);
      RunKeepsInv(s, before);
      ReportedStep(Run(s, before).value, steps[|steps| - 1], w);
    }
  }

  lemma RunMore(s: Bridge, steps: seq<Step>, now: Bridge, e: Step)
    requires Run(s, steps) == Some(now) && Enabled(now, e)
    ensures Run(s, steps + [e]) == Some(Apply(now, e))
    ensures Reported(steps) && !e.LandThenFail? ==> Reported(steps + [e])
  {
    hide Apply, Enabled;
    assert (steps + [e])[..|steps|] == steps;
  }

  /** Everything in flight to a wallet lands. */
  lemma AllLand(s0: Bridge, steps: seq<Step>, s: Bridge, w: Wallet) returns (longer: seq<Step>)
    requires Run(s0, steps) == Some(s) && Reported(steps) && Inv(s)
    ensures Run(s0, longer).Some? && Reported(longer)
    ensures var s' := Run(s0, longer).value;
            && Inv(s') && w !in Payees(s'.inFlight) && s'.granted == s.granted
            && Held(s'.misreported, w) == Held(s.misreported, w) && Held(s'.stranded, w) == Held(s.stranded, w)
    decreases |s.inFlight|
  {
    hide Run, Reported, Inv, InFlightOf;
    if id :| id in s.inFlight && s.inFlight[id].wallet == w {
      RunMore(s0, steps, s, Land(id));
      ApplyKeepsInv(s, Land(id));
      longer := AllLand(s0, steps + [Land(id)], Apply(s, Land(id)), w);
    } else {
      longer := steps;
    }
  }

  /** All the wallet can still draw, drawn: what is in flight lands, a reboot returns its spending, and it claims. */
  lemma DrawEverything(s: Bridge, w: Wallet) returns (steps: seq<Step>)
    requires Inv(s)
    ensures Run(s, steps).Some? && Reported(steps)
    ensures var s' := Run(s, steps).value;
            s'.granted == s.granted && Outgoing(s', w) == Held(s.granted, w) + Held(s.misreported, w) - Held(s.stranded, w)
  {
    hide Run, Inv, InFlightOf, Payees, LogSum, Restored;
    assert Run(s, []) == Some(s) && Reported([]) by { RunNothing(s); }
    steps := AllLand(s, [], s, w);
    var s1 := Run(s, steps).value;
    RunMore(s, steps, s1, Reboot);
    ApplyKeepsInv(s1, Reboot);
    var s2 := Apply(s1, Reboot);
    NothingInFlight(s1, w);
    StrandedMore(s1, w);
    steps := steps + [Reboot];
    RunMore(s, steps, s2, ClaimAll(w));
    ApplyKeepsInv(s2, ClaimAll(w));
    Drawn(s2, w);
    steps := steps + [ClaimAll(w)];
  }

  lemma RunNothing(s: Bridge)
    ensures Run(s, []) == Some(s)
  {
  }

  lemma NothingInFlight(s: Bridge, w: Wallet)
    requires Inv(s) && w !in Payees(s.inFlight)
    ensures InFlightOf(s.inFlight, w) == 0.0
  {
    hide InFlightOf, WalletInv;
    InFlightPositive(s.inFlight, w);
  }

  /** After a reboot a claim leaves a wallet with nothing in the ledger but what is stranded. */
  lemma Drawn(s: Bridge, w: Wallet)
    requires Inv(s) && s.inFlight == map[] && s.spent == map[] && Inv(Apply(s, ClaimAll(w)))
    ensures Outgoing(Apply(s, ClaimAll(w)), w) == Held(s.granted, w) + Held(s.misreported, w) - Held(s.stranded, w)
  {
    hide LogSum, InFlightOf;
    assert WalletInv(Apply(s, ClaimAll(w)), w);
    InFlightPositive(map[], w);
  }

  /**
   * As long as calls report what they did, a wallet draws no more than it was granted, in every continuation,
   * exactly when misreported calls have given back no more than reboots have stranded.
   */
  lemma DrawsWithinGrantsExactlyWhen(s: Bridge, w: Wallet)
    requires Inv(s)
    ensures (forall steps :: Run(s, steps).Some? && Reported(steps) ==>
               Outgoing(Run(s, steps).value, w) <= Held(Run(s, steps).value.granted, w))
            <==> Held(s.misreported, w) <= Held(s.stranded, w)
  {
    hide Run, Inv, Reported, InFlightOf, LogSum;
    if Held(s.misreported, w) <= Held(s.stranded, w) {
      forall steps | Run(s, steps).Some? && Reported(steps)
        ensures Outgoing(Run(s, steps).value, w) <= Held(Run(s, steps).value.granted, w)
      {
        RunKeepsInv(s, steps);
        ReportedRun(s, steps, w);
        OutgoingIs(Run(s, steps).value, w);
      }
    } else {
      var steps := DrawEverything(s, w);
      assert Outgoing(Run(s, steps).value, w) > Held(Run(s, steps).value.granted, w);
    }
  }

  lemma OutgoingIs(s: Bridge, w: Wallet)
    requires Inv(s)
    ensures Outgoing(s, w) <= Held(s.granted, w) + Held(s.misreported, w) - Held(s.stranded, w)
  {
    hide LogSum, InFlightOf;
    assert WalletInv(s, w);
  }

  /** A bridge that lands and still throws is refunded: 10 credits granted, 20 delivered. */
  lemma MisreportedBridgePaysTwice(w: Wallet)
    ensures var grant, bridge := Grant(w, 10.0), Request(1, w, 10.0);
            var steps := [grant, bridge, LandThenFail(1), bridge, Land(1)];
            && Run(NEW_BRIDGE, steps).Some?
            && Held(Run(NEW_BRIDGE, steps).value.granted, w) == 10.0
            && Held(Run(NEW_BRIDGE, steps).value.delivered, w) == 20.0
  {
    hide Run;
    var grant, bridge := Grant(w, 10.0), Request(1, w, 10.0);
    RunNothing(NEW_BRIDGE);
    RunMore(NEW_BRIDGE, [], NEW_BRIDGE, grant);
    var s1 := Apply(NEW_BRIDGE, grant);
    RunMore(NEW_BRIDGE, [] + [grant], s1, bridge);
    var s2 := Apply(s1, bridge);
    RunMore(NEW_BRIDGE, [] + [grant] + [bridge], s2, LandThenFail(1));
    var s3 := Apply(s2, LandThenFail(1));
    RunMore(NEW_BRIDGE, [] + [grant] + [bridge] + [LandThenFail(1)], s3, bridge);
    var s4 := Apply(s3, bridge);
    RunMore(NEW_BRIDGE, [] + [grant] + [bridge] + [LandThenFail(1)] + [bridge], s4, Land(1));
    assert [] + [grant] + [bridge] + [LandThenFail(1)] + [bridge] + [Land(1)]
           == [grant, bridge, LandThenFail(1), bridge, Land(1)];
  }

  /** Spending is not in the log, so a reboot hands back exactly what was spent since the last one. */
  lemma RebootReturnsSpending(s: Bridge, w: Wallet)
    requires Inv(s)
    ensures Held(Apply(s, Reboot).books.pending, w) == Held(s.books.pending, w) + Held(s.spent, w)
  {
    hide LogSum, InFlightOf, Restored;
    assert WalletInv(s, w);
    RestoredBalance(s.books, w);
  }

  // ----- The ledger in place -----

  class YieldLedger {
    var pendingYield: map<Wallet, real>
    var lifetimeEarned: map<Wallet, real>
    var lifetimeRedeemed: map<Wallet, real>
    /** The audit log's events, all written. */
    var events: seq<Posting>

    ghost function Contents(): Books
      reads this
    {
      Books(pendingYield, events)
    }

    constructor ()
      ensures Contents() == Books(map[], []) && lifetimeEarned == lifetimeRedeemed == map[]
    {
      pendingYield, lifetimeEarned, lifetimeRedeemed, events := map[], map[], map[], [];
    }

    method AddPendingYield(w: Wallet, amount: real)
      modifies this
      ensures Contents() == Add(old(Contents()), w, amount)
      ensures lifetimeEarned == if amount > 0.0 then Credit(old(lifetimeEarned), w, amount) else old(lifetimeEarned)
      ensures lifetimeRedeemed == old(lifetimeRedeemed)
    {
      var total := Held(pendingYield, w) + amount;
      pendingYield := pendingYield[w := total];
      if amount > 0.0 {
        lifetimeEarned := lifetimeEarned[w := Held(lifetimeEarned, w) + amount];
      }
      if amount != 0.0 {
        events := events + [Posting(w, amount)];
      }
    }

    method ClaimPendingYield(w: Wallet) returns (amount: real)
      modifies this
      ensures amount == Held(old(pendingYield), w) && Contents() == Claim(old(Contents()), w)
    {
      amount := Held(pendingYield, w);
      pendingYield := pendingYield - {w};
      if amount > 0.0 {
        events := events + [Posting(w, -amount)];
      }
    }

    method RedeemPendingYield(w: Wallet, amount: real) returns (redeemed: bool)
      modifies this
      ensures redeemed == Affordable(old(Contents()), w, amount)
      ensures redeemed <==> amount > 0.0 && Held(old(pendingYield), w) >= amount
      ensures Contents() == Redeem(old(Contents()), w, amount)
      ensures lifetimeRedeemed == if redeemed then Credit(old(lifetimeRedeemed), w, amount) else old(lifetimeRedeemed)
    {
      if amount <= 0.0 || Held(pendingYield, w) < amount {
        return false;
      }
      var remaining := Held(pendingYield, w) - amount;
      pendingYield := if remaining > 0.0 then pendingYield[w := remaining] else pendingYield - {w};
      lifetimeRedeemed := lifetimeRedeemed[w := Held(lifetimeRedeemed, w) + amount];
      events := events + [Posting(w, -amount)];
      return true;
    }

    method SpendPendingYield(w: Wallet, amount: real) returns (spent: bool)
      modifies this`pendingYield
      ensures spent == Affordable(old(Contents()), w, amount)
      ensures spent <==> amount > 0.0 && Held(old(pendingYield), w) >= amount
      ensures Contents() == Spend(old(Contents()), w, amount)
    {
      if amount <= 0.0 || Held(pendingYield, w) < amount {
        return false;
      }
      var remaining := Held(pendingYield, w) - amount;
      pendingYield := if remaining > 0.0 then pendingYield[w := remaining] else pendingYield - {w};
      return true;
    }

    method GetTotalPendingYield() returns (total: real)
      ensures total == Total(pendingYield)
    {
      total := 0.0;
      var todo := pendingYield.Keys;
      while todo != {}
        invariant todo <= pendingYield.Keys && total == Total(pendingYield - todo)
        decreases |todo|
      {
        var w :| w in todo;
        TotalPut(pendingYield - todo, w, pendingYield[w]);
        assert pendingYield - (todo - {w}) == (pendingYield - todo)[w := pendingYield[w]];
        total := total + pendingYield[w];
        todo := todo - {w};
      }
      assert pendingYield - {} == pendingYield;
    }

    /** Boot, before any traffic: the log's balances become the pending yield. */
    method RestorePendingYield() returns (restored: nat)
      requires pendingYield == map[]
      modifies this`pendingYield
      ensures Contents() == Restored(old(Contents()))
      ensures restored == |pendingYield|
    {
      restored := 0;
      var wallets := Wallets(events);
      var todo := wallets;
      while todo != {}
        invariant todo <= wallets && restored == |pendingYield|
        invariant pendingYield == PositiveBalances(events, wallets - todo)
        decreases |todo|
      {
        hide LogSum, PositiveBalances;
        var w :| w in todo;
        OneMoreBalance(events, wallets - todo, w);
        assert wallets - (todo - {w}) == wallets - todo + {w};
        var amount := LogSum(events, w);
        if amount > 0.0 {
          pendingYield := pendingYield[w := amount];
          restored := restored + 1;
        }
        todo := todo - {w};
      }
    }
  }
}
