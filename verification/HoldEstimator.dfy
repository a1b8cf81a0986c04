/** The on-chain hold estimator: since when a wallet has held its required balance. */
module HoldEstimation {
  import opened Prelude
  import opened Sorting

  /** `amount` is missing when the API reported none. */
  datatype Transfer = Transfer(mint: string, from: Wallet, to: Wallet, amount: Option<real>)

  datatype Tx = Tx(timestamp: Option<int>, transfers: seq<Transfer>)

  datatype Outcome = Invalid | FetchFailed | Estimate(startMs: Option<int>)

  datatype CacheEntry = CacheEntry(result: Option<int>, expiresAt: int)

  // ----- The reverse simulation -----

  /** Undoing one transfer; a transfer to oneself counts as inbound only. */
  function Undo(balance: real, t: Transfer, mint: string, wallet: Wallet): real {
    if t.mint != mint || t.amount.None? then balance
    else if t.to == wallet then balance - t.amount.value
    else if t.from == wallet then balance + t.amount.value
    else balance
  }

  function UndoAll(balance: real, ts: seq<Transfer>, mint: string, wallet: Wallet): real {
    if ts == [] then balance else Undo(UndoAll(balance, ts[..|ts| - 1], mint, wallet), ts[|ts| - 1], mint, wallet)
  }

  /** The simulated balance right after `txs[i]`, newest first: everything before `i` undone. */
  function Simulated(current: real, txs: seq<Tx>, i: nat, mint: string, wallet: Wallet): real
    requires i <= |txs|
  {
    if i == 0 then current
    else UndoAll(Simulated(current, txs, i - 1, mint, wallet), txs[i - 1].transfers, mint, wallet)
  }

  /** The newest transaction before which the simulated balance was too low, or the length. */
  function Dip(current: real, required: real, txs: seq<Tx>, mint: string, wallet: Wallet, i: nat := 0): (k: nat)
    requires i <= |txs|
    ensures i <= k <= |txs|
    ensures forall j :: i < j <= k ==> Simulated(current, txs, j, mint, wallet) >= required
    ensures k < |txs| ==> Simulated(current, txs, k + 1, mint, wallet) < required
    decreases |txs| - i
  {
    if i == |txs| || Simulated(current, txs, i + 1, mint, wallet) < required then i
    else Dip(current, required, txs, mint, wallet, i + 1)
  }

  function ToMs(seconds: Option<int>): Option<int> {
    if seconds.Some? then Some(seconds.value * 1000) else None
  }

  /** The dip's time, or the oldest transaction's when there is no dip or it carries no time. */
  function HoldStart(current: real, required: real, txs: seq<Tx>, mint: string, wallet: Wallet): Option<int> {
    if current < required || txs == [] then None
    else
      var k := Dip(current, required, txs, mint, wallet);
      if k < |txs| && txs[k].timestamp.Some? then ToMs(txs[k].timestamp) else ToMs(txs[|txs| - 1].timestamp)
  }

  // ----- Forward replay -----

  /** What a transfer really does to the wallet's balance. */
  function Effect(t: Transfer, mint: string, wallet: Wallet): real {
    if t.mint != mint || t.amount.None? then 0.0
    else (if t.to == wallet then t.amount.value else 0.0) - (if t.from == wallet then t.amount.value else 0.0)
  }

  function NetEffect(ts: seq<Transfer>, mint: string, wallet: Wallet): real {
    if ts == [] then 0.0 else NetEffect(ts[..|ts| - 1], mint, wallet) + Effect(ts[|ts| - 1], mint, wallet)
  }

  /** The true balance right after `txs[i]` when the wallet held `opening` before the oldest. */
  function Balance(opening: real, txs: seq<Tx>, i: nat, mint: string, wallet: Wallet): real
    requires i <= |txs|
    decreases |txs| - i
  {
    if i == |txs| then opening
    else Balance(opening, txs, i + 1, mint, wallet) + NetEffect(txs[i].transfers, mint, wallet)
  }

  predicate SelfTransfer(t: Transfer, wallet: Wallet) {
    t.from == wallet && t.to == wallet
  }

  ghost predicate NoSelf(ts: seq<Transfer>, wallet: Wallet) {
    forall j :: 0 <= j < |ts| ==> !SelfTransfer(ts[j], wallet)
  }

  ghost predicate NoSelfTransfers(txs: seq<Tx>, wallet: Wallet) {
    forall tx :: tx in txs ==> NoSelf(tx.transfers, wallet)
  }

  ghost predicate NonNegativeAmounts(ts: seq<Transfer>) {
    forall j :: 0 <= j < |ts| && ts[j].amount.Some? ==> ts[j].amount.value >= 0.0
  }

  ghost predicate AmountsNonNegative(txs: seq<Tx>) {
    forall tx :: tx in txs ==> NonNegativeAmounts(tx.transfers)
  }

  /** What the wallet sent itself. */
  function SelfSent(t: Transfer, mint: string, wallet: Wallet): real {
    if t.mint == mint && t.amount.Some? && SelfTransfer(t, wallet) then t.amount.value else 0.0
  }

  function SumSelfSent(ts: seq<Transfer>, mint: string, wallet: Wallet): real {
    if ts == [] then 0.0 else SumSelfSent(ts[..|ts| - 1], mint, wallet) + SelfSent(ts[|ts| - 1], mint, wallet)
  }

  /** What the wallet sent itself in the `k` newest transactions. */
  function SelfTotal(txs: seq<Tx>, k: nat, mint: string, wallet: Wallet): real
    requires k <= |txs|
  {
    if k == 0 then 0.0 else SelfTotal(txs, k - 1, mint, wallet) + SumSelfSent(txs[k - 1].transfers, mint, wallet)
  }

  /** Undoing transfers takes back what they really did and, wrongly, what the wallet sent itself. */
  lemma {:induction false} UndoTakes(balance: real, ts: seq<Transfer>, mint: string, wallet: Wallet)
    ensures UndoAll(balance, ts, mint, wallet) == balance - NetEffect(ts, mint, wallet) - SumSelfSent(ts, mint, wallet)
  {
    if ts != [] {
      UndoTakes(balance, ts[..|ts| - 1], mint, wallet);
    }
  }

  /** The simulation is short of the balance really held by exactly what the wallet sent itself since. */
  lemma {:induction false} SimulationFollowsReplay(opening: real, txs: seq<Tx>, k: nat, mint: string, wallet: Wallet)
    requires k <= |txs|
    ensures Simulated(Balance(opening, txs, 0, mint, wallet), txs, k, mint, wallet)
            == Balance(opening, txs, k, mint, wallet) - SelfTotal(txs, k, mint, wallet)
  {
    if k > 0 {
      hide UndoAll, NetEffect, SumSelfSent;
      SimulationFollowsReplay(opening, txs, k - 1, mint, wallet);
      UndoTakes(Simulated(Balance(opening, txs, 0, mint, wallet), txs, k - 1, mint, wallet), txs[k - 1].transfers, mint, wallet);
    }
  }

  lemma {:induction false} SelfSentSign(ts: seq<Transfer>, mint: string, wallet: Wallet)
    ensures NonNegativeAmounts(ts) ==> SumSelfSent(ts, mint, wallet) >= 0.0
    ensures NoSelf(ts, wallet) ==> SumSelfSent(ts, mint, wallet) == 0.0
  {
    if ts != [] {
      SelfSentSign(ts[..|ts| - 1], mint, wallet);
    }
  }

  lemma {:induction false} SelfTotalSign(txs: seq<Tx>, k: nat, mint: string, wallet: Wallet)
    requires k <= |txs|
    ensures AmountsNonNegative(txs) ==> SelfTotal(txs, k, mint, wallet) >= 0.0
    ensures NoSelfTransfers(txs, wallet) ==> SelfTotal(txs, k, mint, wallet) == 0.0
  {
    if k > 0 {
      hide SumSelfSent;
      SelfTotalSign(txs, k - 1, mint, wallet);
      assert txs[k - 1] in txs;
      SelfSentSign(txs[k - 1].transfers, mint, wallet);
    }
  }

  // ----- What the estimate means -----

  function SortKey(tx: Tx): real {
    if tx.timestamp.Some? then tx.timestamp.value as real else 0.0
  }

  ghost predicate PositiveTimes(txs: seq<Tx>) {
    forall tx :: tx in txs && tx.timestamp.Some? ==> tx.timestamp.value > 0
  }

  /** From right after `txs[k]` until now the wallet held the requirement. */
  ghost predicate HeldSince(opening: real, required: real, txs: seq<Tx>, k: nat, mint: string, wallet: Wallet) {
    k < |txs| && forall i :: 0 <= i <= k ==> Balance(opening, txs, i, mint, wallet) >= required
  }

  /** In a sorted list everything behind a transaction without a time is without one too. */
  lemma UntimedLast(txs: seq<Tx>, k: nat)
    requires Descending(txs, SortKey) && PositiveTimes(txs) && k < |txs| && txs[k].timestamp.None?
    ensures txs[|txs| - 1].timestamp.None?
  {
    assert SortKey(txs[k]) >= SortKey(txs[|txs| - 1]);
    assert txs[|txs| - 1] in txs;
  }

  /**
   * An estimate never overclaims, self-transfers or not: it is the time of a transaction since which
   * the wallet has really held the requirement. Either that transaction is where the simulation dips,
   * or nothing in the window dips and it is the oldest one fetched.
   */
  lemma EstimateIsSound(opening: real, required: real, txs: seq<Tx>, mint: string, wallet: Wallet) returns (k: nat)
    requires Descending(txs, SortKey) && PositiveTimes(txs) && AmountsNonNegative(txs)
    requires HoldStart(Balance(opening, txs, 0, mint, wallet), required, txs, mint, wallet).Some?
    ensures HeldSince(opening, required, txs, k, mint, wallet)
    ensures HoldStart(Balance(opening, txs, 0, mint, wallet), required, txs, mint, wallet) == ToMs(txs[k].timestamp)
    ensures var dip := Dip(Balance(opening, txs, 0, mint, wallet), required, txs, mint, wallet);
            if dip < |txs| then k == dip else k == |txs| - 1
  {
    hide Simulated, Balance, SortKey, SelfTotal;
    var current := Balance(opening, txs, 0, mint, wallet);
    var dip := Dip(current, required, txs, mint, wallet);
    if dip < |txs| && txs[dip].timestamp.None? {
      UntimedLast(txs, dip);
    }
    k := if dip < |txs| then dip else |txs| - 1;
    forall i | 0 <= i <= k ensures Balance(opening, txs, i, mint, wallet) >= required {
      SimulationFollowsReplay(opening, txs, i, mint, wallet);
      SelfTotalSign(txs, i, mint, wallet);
      if i > 0 {
        assert Simulated(current, txs, i, mint, wallet) >= required;
      } else {
        NothingUndone(current, txs, mint, wallet);
      }
    }
  }

  /** There is an estimate exactly when the wallet holds the requirement now and the dip or the oldest transaction is timed. */
  lemma EstimatedExactlyWhen(current: real, required: real, txs: seq<Tx>, mint: string, wallet: Wallet)
    requires Descending(txs, SortKey) && PositiveTimes(txs)
    ensures HoldStart(current, required, txs, mint, wallet).Some? <==>
            && current >= required && txs != []
            && txs[Min(Dip(current, required, txs, mint, wallet), |txs| - 1)].timestamp.Some?
  {
    hide Simulated, SortKey;
    var dip := Dip(current, required, txs, mint, wallet);
    if dip < |txs| && txs[dip].timestamp.None? {
      UntimedLast(txs, dip);
    }
  }

  function Min(a: nat, b: int): int {
    if a <= b then a else b
  }

  lemma NothingUndone(current: real, txs: seq<Tx>, mint: string, wallet: Wallet)
    ensures Simulated(current, txs, 0, mint, wallet) == current
  {
  }

  /** The newest transaction before which the wallet really was short, or the length. */
  function TrueDip(opening: real, required: real, txs: seq<Tx>, mint: string, wallet: Wallet, i: nat := 0): (k: nat)
    requires i <= |txs|
    ensures i <= k <= |txs|
    ensures forall j :: i < j <= k ==> Balance(opening, txs, j, mint, wallet) >= required
    ensures k < |txs| ==> Balance(opening, txs, k + 1, mint, wallet) < required
    decreases |txs| - i
  {
    if i == |txs| || Balance(opening, txs, i + 1, mint, wallet) < required then i
    else TrueDip(opening, required, txs, mint, wallet, i + 1)
  }

  /**
   * The estimate is also the earliest such time in the window exactly when no dip is reported, or what the
   * wallet sent itself since the reported dip is less than what the simulation is short by.
   */
  lemma EstimateIsExactlyWhen(opening: real, required: real, txs: seq<Tx>, mint: string, wallet: Wallet)
    requires AmountsNonNegative(txs)
    ensures var current := Balance(opening, txs, 0, mint, wallet);
            var k := Dip(current, required, txs, mint, wallet);
            TrueDip(opening, required, txs, mint, wallet) == k
            <==> (k < |txs| ==> SelfTotal(txs, k + 1, mint, wallet) < required - Simulated(current, txs, k + 1, mint, wallet))
  {
    hide Simulated, Balance, SelfTotal, AmountsNonNegative;
    var current := Balance(opening, txs, 0, mint, wallet);
    var k, true' := Dip(current, required, txs, mint, wallet), TrueDip(opening, required, txs, mint, wallet);
    if true' < |txs| {
      SimulationFollowsReplay(opening, txs, true' + 1, mint, wallet);
      SelfTotalSign(txs, true' + 1, mint, wallet);
      assert k <= true';
    }
    if k < |txs| {
      SimulationFollowsReplay(opening, txs, k + 1, mint, wallet);
    }
  }

  /** Without self-transfers the estimate is always the earliest such time in the window. */
  lemma EstimateIsExact(opening: real, required: real, txs: seq<Tx>, mint: string, wallet: Wallet)
    requires NoSelfTransfers(txs, wallet)
    ensures Dip(Balance(opening, txs, 0, mint, wallet), required, txs, mint, wallet)
            == TrueDip(opening, required, txs, mint, wallet)
  {
    hide Simulated, Balance, SelfTotal, NoSelfTransfers;
    var current := Balance(opening, txs, 0, mint, wallet);
    forall k | 0 <= k <= |txs| ensures Simulated(current, txs, k, mint, wallet) == Balance(opening, txs, k, mint, wallet) {
      SimulationFollowsReplay(opening, txs, k, mint, wallet);
      SelfTotalSign(txs, k, mint, wallet);
    }
    var k, true' := Dip(current, required, txs, mint, wallet), TrueDip(opening, required, txs, mint, wallet);
    assert k < |txs| ==> Balance(opening, txs, k + 1, mint, wallet) < required;
    assert true' < |txs| ==> Simulated(current, txs, true' + 1, mint, wallet) < required;
  }

  /** A self-transfer is read as a dip that never was: the hold is reported later than it began. */
  lemma SelfTransferUndercounts()
    ensures var self := Tx(Some(20), [Transfer("mint", "me", "me", Some(60.0))]);
            var old' := Tx(Some(10), [Transfer("mint", "you", "me", Some(0.0))]);
            && Balance(100.0, [self, old'], 0, "mint", "me") == 100.0
            && Balance(100.0, [self, old'], 1, "mint", "me") == Balance(100.0, [self, old'], 2, "mint", "me") == 100.0
            && HoldStart(100.0, 50.0, [self, old'], "mint", "me") == Some(20000)
  {
    var t, o := Transfer("mint", "me", "me", Some(60.0)), Transfer("mint", "you", "me", Some(0.0));
    var txs := [Tx(Some(20), [t]), Tx(Some(10), [o])];
    assert [t][..0] == [] && [o][..0] == [];
    assert NetEffect([t], "mint", "me") == 0.0 && NetEffect([o], "mint", "me") == 0.0;
    assert Balance(100.0, txs, 2, "mint", "me") == 100.0;
    assert Balance(100.0, txs, 1, "mint", "me") == 100.0;
    assert UndoAll(100.0, [t], "mint", "me") == 40.0;
    assert Simulated(100.0, txs, 1, "mint", "me") == 40.0;
  }

  // ----- The estimator in place -----

  class OnChainHoldEstimator {
    const mint: string
    const cacheTtlMs: nat
    var cache: map<Wallet, CacheEntry>

    constructor (mint: string, cacheTtlMs: nat)
      ensures this.mint == mint && this.cacheTtlMs == cacheTtlMs && cache == map[]
    {
      this.mint, this.cacheTtlMs, cache := mint, cacheTtlMs, map[];
    }

    predicate Cached(wallet: Wallet, now: int)
      reads this
    {
      cacheTtlMs > 0 && wallet in cache && cache[wallet].expiresAt > now
    }

    method CacheResult(wallet: Wallet, result: Option<int>, now: int)
      modifies this
      ensures cache == if cacheTtlMs == 0 then old(cache) else old(cache)[wallet := CacheEntry(result, now + cacheTtlMs)]
    {
      if cacheTtlMs > 0 {
        cache := cache[wallet := CacheEntry(result, now + cacheTtlMs)];
      }
    }

    /** The loop over one transaction's transfers. */
    method UndoTransfers(balance: real, transfers: seq<Transfer>, wallet: Wallet) returns (before: real)
      ensures before == UndoAll(balance, transfers, mint, wallet)
    {
      before := balance;
      for i := 0 to |transfers|
        invariant before == UndoAll(balance, transfers[..i], mint, wallet)
      {
        assert transfers[..i + 1][..i] == transfers[..i];
        var t := transfers[i];
        if t.mint == mint && t.amount.Some? {
          if t.to == wallet {
            before := before - t.amount.value;
          } else if t.from == wallet {
            before := before + t.amount.value;
          }
        }
      }
      assert transfers[..|transfers|] == transfers;
    }

    /** The walk from newest to oldest. */
    method Walk(current: real, required: real, txs: seq<Tx>, wallet: Wallet) returns (result: Option<int>)
      requires current >= required && txs != []
      ensures result == HoldStart(current, required, txs, mint, wallet)
    {
      hide UndoAll;
      var balance := current;
      result := None;
      var i := 0;
      while i < |txs|
        invariant i <= |txs| && result.None?
        invariant balance == Simulated(current, txs, i, mint, wallet)
        invariant Dip(current, required, txs, mint, wallet) == Dip(current, required, txs, mint, wallet, i)
      {
        balance := UndoTransfers(balance, txs[i].transfers, wallet);
        if balance < required {
          if txs[i].timestamp.Some? {
            result := Some(txs[i].timestamp.value * 1000);
          }
          break;
        }
        i := i + 1;
      }
      if result.None? {
        result := ToMs(txs[|txs| - 1].timestamp);
      }
    }

    /** `fetched` are the transactions as the API returns them, or `None` when the request fails. */
    method EstimateHoldStart(wallet: Wallet, current: real, required: real, fetched: Option<seq<Tx>>, now: int)
      returns (outcome: Outcome)
      modifies this
      ensures current < 0.0 || required < 0.0 ==> outcome == Invalid && cache == old(cache)
      ensures current >= 0.0 && required >= 0.0 ==>
                if old(Cached(wallet, now)) then outcome == Estimate(old(cache)[wallet].result) && cache == old(cache)
                else if current >= required && fetched.None? then outcome == FetchFailed && cache == old(cache)
                else
                  && outcome == Estimate(if current < required then None
                                         else HoldStart(current, required, SortDescending(fetched.value, SortKey), mint, wallet))
                  && (cacheTtlMs > 0 ==> cache == old(cache)[wallet := CacheEntry(outcome.startMs, now + cacheTtlMs)])
    {
      hide HoldStart, SortDescending;
      if current < 0.0 || required < 0.0 {
        return Invalid;
      }
      if cacheTtlMs > 0 && wallet in cache && cache[wallet].expiresAt > now {
        return Estimate(cache[wallet].result);
      }
      if current < required {
        CacheResult(wallet, None, now);
        return Estimate(None);
      }
      if fetched.None? {
        return FetchFailed;
      }
      var txs := SortDescending(fetched.value, SortKey);
      NoHistory(current, required, txs, wallet);
      if txs == [] {
        CacheResult(wallet, None, now);
        return Estimate(None);
      }
      var result := Walk(current, required, txs, wallet);
      CacheResult(wallet, result, now);
      return Estimate(result);
    }

    lemma NoHistory(current: real, required: real, txs: seq<Tx>, wallet: Wallet)
      ensures txs == [] ==> HoldStart(current, required, txs, mint, wallet) == None
    {
    }
  }

  /** What a fresh estimate says about the transactions as fetched, in any order. */
  lemma FreshEstimateIsSound(opening: real, required: real, fetched: seq<Tx>, mint: string, wallet: Wallet) returns (k: nat)
    requires PositiveTimes(fetched) && AmountsNonNegative(fetched)
    requires var txs := SortDescending(fetched, SortKey);
             HoldStart(Balance(opening, txs, 0, mint, wallet), required, txs, mint, wallet).Some?
    ensures var txs := SortDescending(fetched, SortKey);
            && multiset(txs) == multiset(fetched)
            && HeldSince(opening, required, txs, k, mint, wallet)
            && HoldStart(Balance(opening, txs, 0, mint, wallet), required, txs, mint, wallet) == ToMs(txs[k].timestamp)
  {
    hide HoldStart, Balance, HeldSince, SortDescending;
    var txs := SortDescending(fetched, SortKey);
    SortSorts(fetched, SortKey);
    forall tx | tx in txs ensures tx in fetched {
      assert tx in multiset(txs);
    }
    k := EstimateIsSound(opening, required, txs, mint, wallet);
  }
}
