/** The wager ledger: raid pools, the bets in them and the per-wallet index. */
module BetLedger {
  import opened Prelude
  import opened Settlement

  type RaidId = string

  /** Bet ids embed the raid, the wallet and the time of placing. */
  datatype BetId = BetId(raid: RaidId, wallet: Wallet, at: int)

  datatype BetStatus = Locked | Won | Lost

  datatype Bet = Bet(asteroid: AsteroidId, amount: real, status: BetStatus)

  /** `attackerBets` in order of placing; an active pool has no `resolvedAt`. */
  datatype Pool = Pool(target: AsteroidId, source: AsteroidId, attackerBets: seq<BetId>, total: real,
                       resolvedAt: Option<int>)

  datatype Ledger = Ledger(pools: map<RaidId, Pool>, bets: map<BetId, Bet>, byWallet: map<Wallet, set<BetId>>)

  const DEFAULT_CLEANUP_WINDOW_MS := 24 * 60 * 60 * 1000

  // ----- Operations -----

  predicate IsActive(l: Ledger, raid: RaidId) {
    raid in l.pools && l.pools[raid].resolvedAt.None?
  }

  predicate HasBet(ids: seq<BetId>, wallet: Wallet) {
    exists i :: 0 <= i < |ids| && ids[i].wallet == wallet
  }

  function BetsOfWallet(byWallet: map<Wallet, set<BetId>>, wallet: Wallet): set<BetId> {
    if wallet in byWallet then byWallet[wallet] else {}
  }

  function CreatePool(l: Ledger, raid: RaidId, target: AsteroidId, source: AsteroidId): Ledger {
    l.(pools := l.pools[raid := Pool(target, source, [], 0.0, None)])
  }

  predicate CanPlace(l: Ledger, raid: RaidId, wallet: Wallet) {
    IsActive(l, raid) && !HasBet(l.pools[raid].attackerBets, wallet)
  }

  function Place(l: Ledger, raid: RaidId, wallet: Wallet, asteroid: AsteroidId, amount: real, at: int): Ledger
    requires raid in l.pools
  {
    var id := BetId(raid, wallet, at);
    var pool := l.pools[raid];
    Ledger(l.pools[raid := pool.(attackerBets := pool.attackerBets + [id], total := pool.total + amount)],
           l.bets[id := Bet(asteroid, amount, Locked)],
           l.byWallet[wallet := BetsOfWallet(l.byWallet, wallet) + {id}])
  }

  function PayoutOf(bets: map<BetId, Bet>, id: BetId): Payout
    requires id in bets
  {
    Payout(id.wallet, bets[id].amount)
  }

  /** The bets `ids` as wallets and amounts. */
  function BetsOf(bets: map<BetId, Bet>, ids: seq<BetId>): seq<Payout>
    requires forall id :: id in ids ==> id in bets
  {
    seq(|ids|, i requires 0 <= i < |ids| => PayoutOf(bets, ids[i]))
  }

  function Outcome(side: Side): BetStatus {
    if side.Attacker? then Won else Lost
  }

  function WithStatus(bets: map<BetId, Bet>, ids: seq<BetId>, status: BetStatus): map<BetId, Bet> {
    map id | id in bets :: if id in ids then bets[id].(status := status) else bets[id]
  }

  function Close(l: Ledger, raid: RaidId, side: Side, at: int): Ledger
    requires raid in l.pools
  {
    var pool := l.pools[raid];
    l.(pools := l.pools[raid := pool.(resolvedAt := Some(at))],
       bets := WithStatus(l.bets, pool.attackerBets, Outcome(side)))
  }

  predicate Stale(p: Pool, now: int, maxAge: int) {
    p.resolvedAt.Some? && now - p.resolvedAt.value > maxAge
  }

  /** Taking bets out of the per-wallet index drops wallets left with none. */
  function Prune(byWallet: map<Wallet, set<BetId>>, gone: set<BetId>): map<Wallet, set<BetId>> {
    map w | w in byWallet && byWallet[w] - gone != {} :: byWallet[w] - gone
  }

  /** The bets of the pools in `raids`. */
  function BetsIn(l: Ledger, raids: set<RaidId>): set<BetId> {
    set id | id in l.bets && id.raid in raids
  }

  function Without(l: Ledger, raids: set<RaidId>): Ledger {
    Ledger(l.pools - raids, l.bets - BetsIn(l, raids), Prune(l.byWallet, BetsIn(l, raids)))
  }

  function StalePools(l: Ledger, now: int, maxAge: int): (stale: set<RaidId>)
    ensures stale <= l.pools.Keys
  {
    set r | r in l.pools && Stale(l.pools[r], now, maxAge)
  }

  // ----- Agreement of the three indexes -----

  ghost predicate OneBetPerWallet(ids: seq<BetId>) {
    forall i, j :: 0 <= i < j < |ids| ==> ids[i].wallet != ids[j].wallet
  }

  /** The pool's bets are its own and known, one a wallet, locked while it is active; its total is theirs. */
  ghost predicate PoolAgrees(bets: map<BetId, Bet>, raid: RaidId, p: Pool) {
    && OneBetPerWallet(p.attackerBets)
    && (forall id :: id in p.attackerBets ==> id in bets && id.raid == raid)
    && (forall id :: id in p.attackerBets && id in bets ==> (bets[id].status.Locked? <==> p.resolvedAt.None?))
    && p.total == SumAmounts(BetsOf(bets, p.attackerBets))
  }

  ghost predicate InItsPool(l: Ledger, id: BetId) {
    id.raid in l.pools && id in l.pools[id.raid].attackerBets
  }

  ghost predicate BetsPooled(l: Ledger) {
    forall id :: id in l.bets ==> InItsPool(l, id)
  }

  /** The per-wallet index lists exactly the wallet's bets and no wallet without bets. */
  ghost predicate Indexed(l: Ledger) {
    && (forall w, id :: id in BetsOfWallet(l.byWallet, w) <==> id in l.bets && id.wallet == w)
    && (forall w :: w in l.byWallet ==> l.byWallet[w] != {})
  }

  ghost predicate Inv(l: Ledger) {
    && (forall r :: r in l.pools ==> PoolAgrees(l.bets, r, l.pools[r]))
    && BetsPooled(l) && Indexed(l)
  }

  lemma CreateKeepsInv(l: Ledger, raid: RaidId, target: AsteroidId, source: AsteroidId)
    requires Inv(l) && raid !in l.pools
    ensures Inv(CreatePool(l, raid, target, source))
  {
  }

  /** A wallet without a bet in the pool has no bet on the raid at all. */
  lemma NewBetIsNew(l: Ledger, raid: RaidId, wallet: Wallet, at: int)
    requires Inv(l) && CanPlace(l, raid, wallet)
    ensures BetId(raid, wallet, at) !in l.bets
  {
    hide PoolAgrees, Indexed;
    assert BetId(raid, wallet, at) in l.bets ==> InItsPool(l, BetId(raid, wallet, at));
  }

  lemma BetsOfFrame(bets: map<BetId, Bet>, bets': map<BetId, Bet>, ids: seq<BetId>)
    requires forall id :: id in ids ==> id in bets && id in bets' && bets[id].amount == bets'[id].amount
    ensures BetsOf(bets', ids) == BetsOf(bets, ids)
  {
  }

  /** The pool with one more bet still agrees with the bets. */
  lemma PlacedPool(bets: map<BetId, Bet>, p: Pool, id: BetId, bet: Bet)
    requires PoolAgrees(bets, id.raid, p) && p.resolvedAt.None?
    requires id !in bets && !HasBet(p.attackerBets, id.wallet) && bet.status.Locked?
    ensures PoolAgrees(bets[id := bet], id.raid, p.(attackerBets := p.attackerBets + [id], total := p.total + bet.amount))
  {
    var bets', ids := bets[id := bet], p.attackerBets + [id];
    BetsOfFrame(bets, bets', p.attackerBets);
    assert BetsOf(bets', ids) == BetsOf(bets', p.attackerBets) + [Payout(id.wallet, bet.amount)];
    SumAmountsAppend(BetsOf(bets', p.attackerBets), Payout(id.wallet, bet.amount));
  }

  lemma PlaceKeepsPools(l: Ledger, raid: RaidId, wallet: Wallet, asteroid: AsteroidId, amount: real, at: int)
    requires Inv(l) && CanPlace(l, raid, wallet)
    ensures var l' := Place(l, raid, wallet, asteroid, amount, at);
            (forall r :: r in l'.pools ==> PoolAgrees(l'.bets, r, l'.pools[r])) && BetsPooled(l')
  {
    hide BetsOf, SumAmounts, OneBetPerWallet, HasBet, Indexed;
    var l' := Place(l, raid, wallet, asteroid, amount, at);
    NewBetIsNew(l, raid, wallet, at);
    forall r | r in l'.pools ensures PoolAgrees(l'.bets, r, l'.pools[r]) {
      if r == raid {
        PlacedPool(l.bets, l.pools[r], BetId(raid, wallet, at), Bet(asteroid, amount, Locked));
      } else {
        BetsOfFrame(l.bets, l'.bets, l.pools[r].attackerBets);
      }
    }
  }

  lemma PlaceKeepsInv(l: Ledger, raid: RaidId, wallet: Wallet, asteroid: AsteroidId, amount: real, at: int)
    requires Inv(l) && CanPlace(l, raid, wallet)
    ensures Inv(Place(l, raid, wallet, asteroid, amount, at))
  {
    hide PoolAgrees, BetsPooled, HasBet;
    var l' := Place(l, raid, wallet, asteroid, amount, at);
    NewBetIsNew(l, raid, wallet, at);
    PlaceKeepsPools(l, raid, wallet, asteroid, amount, at);
    forall w, id ensures id in BetsOfWallet(l'.byWallet, w) <==> id in l'.bets && id.wallet == w {
      assert id in BetsOfWallet(l.byWallet, w) <==> id in l.bets && id.wallet == w;
    }
  }

  lemma CloseKeepsInv(l: Ledger, raid: RaidId, side: Side, at: int)
    requires Inv(l) && IsActive(l, raid)
    ensures Inv(Close(l, raid, side, at))
  {
    hide BetsOf, SumAmounts, OneBetPerWallet;
    var l' := Close(l, raid, side, at);
    forall r | r in l'.pools ensures PoolAgrees(l'.bets, r, l'.pools[r]) {
      assert PoolAgrees(l.bets, r, l.pools[r]);
      BetsOfFrame(l.bets, l'.bets, l.pools[r].attackerBets);
    }
  }

  /** A closed pool's bets are won or lost with its side, every other bet stays as it was, and the pool is dated. */
  lemma CloseDecides(l: Ledger, raid: RaidId, side: Side, at: int)
    requires Inv(l) && IsActive(l, raid)
    ensures var l' := Close(l, raid, side, at);
            && l'.bets.Keys == l.bets.Keys && l'.pools[raid].resolvedAt == Some(at)
            && (forall id :: id in l.bets && id.raid == raid ==>
                  l'.bets[id].status == (if side.Attacker? then Won else Lost) && l'.bets[id].amount == l.bets[id].amount)
            && forall id :: id in l.bets && id.raid != raid ==> l'.bets[id] == l.bets[id]
  {
    hide BetsOf, SumAmounts, OneBetPerWallet, Indexed;
    assert PoolAgrees(l.bets, raid, l.pools[raid]);
    forall id | id in l.bets && id.raid == raid ensures id in l.pools[raid].attackerBets {
      assert InItsPool(l, id);
    }
  }

  lemma WithoutKeepsIndex(l: Ledger, raids: set<RaidId>)
    requires Indexed(l)
    ensures Indexed(Without(l, raids))
  {
    var l' := Without(l, raids);
    forall w, id ensures id in BetsOfWallet(l'.byWallet, w) <==> id in l'.bets && id.wallet == w {
      assert id in BetsOfWallet(l.byWallet, w) <==> id in l.bets && id.wallet == w;
    }
  }

  lemma WithoutKeepsInv(l: Ledger, raids: set<RaidId>)
    requires Inv(l)
    ensures Inv(Without(l, raids))
  {
    hide BetsOf, SumAmounts, OneBetPerWallet, Indexed;
    var l' := Without(l, raids);
    WithoutKeepsIndex(l, raids);
    forall r | r in l'.pools ensures PoolAgrees(l'.bets, r, l'.pools[r]) {
      assert PoolAgrees(l.bets, r, l.pools[r]);
      BetsOfFrame(l.bets, l'.bets, l.pools[r].attackerBets);
    }
    forall id | id in l'.bets ensures InItsPool(l', id) {
      assert InItsPool(l, id);
    }
  }

  // ----- Locked bets -----

  function LockedBets(l: Ledger, w: Wallet): map<BetId, real> {
    map id | id in l.bets && id.wallet == w && l.bets[id].status.Locked? :: l.bets[id].amount
  }

  /** What the wallet has at stake. */
  ghost function LockedAmount(l: Ledger, w: Wallet): real {
    Total(LockedBets(l, w))
  }

  lemma PlaceLocks(l: Ledger, raid: RaidId, wallet: Wallet, asteroid: AsteroidId, amount: real, at: int, w: Wallet)
    requires Inv(l) && CanPlace(l, raid, wallet)
    ensures LockedAmount(Place(l, raid, wallet, asteroid, amount, at), w)
            == LockedAmount(l, w) + (if w == wallet then amount else 0.0)
  {
    hide Inv;
    var l' := Place(l, raid, wallet, asteroid, amount, at);
    NewBetIsNew(l, raid, wallet, at);
    if w == wallet {
      assert LockedBets(l', w) == LockedBets(l, w)[BetId(raid, wallet, at) := amount];
      TotalPut(LockedBets(l, w), BetId(raid, wallet, at), amount);
    } else {
      assert LockedBets(l', w) == LockedBets(l, w);
    }
  }

  /** What the wallet staked on the raid. */
  ghost function StakeOn(l: Ledger, raid: RaidId, w: Wallet): real
    requires raid in l.pools && forall id :: id in l.pools[raid].attackerBets ==> id in l.bets
  {
    var ids := l.pools[raid].attackerBets;
    if i :| 0 <= i < |ids| && ids[i].wallet == w then l.bets[ids[i]].amount else 0.0
  }

  /** Closing a pool unlocks exactly its bets. */
  lemma ClosedLocks(l: Ledger, raid: RaidId, side: Side, at: int, w: Wallet)
    requires raid in l.pools
    ensures LockedBets(Close(l, raid, side, at), w)
            == map id | id in LockedBets(l, w) && id !in l.pools[raid].attackerBets :: LockedBets(l, w)[id]
  {
  }

  /** A wallet has at most one bet in a pool. */
  lemma OnlyBetOf(ids: seq<BetId>, i: nat, m: map<BetId, real>, w: Wallet)
    requires OneBetPerWallet(ids) && i < |ids| && ids[i].wallet == w
    requires forall id :: id in m ==> id.wallet == w
    ensures (map id | id in m && id !in ids :: m[id]) == m - {ids[i]}
  {
    forall id | id in m && id in ids ensures id == ids[i] {
      var j :| 0 <= j < |ids| && ids[j] == id;
    }
  }

  lemma CloseUnlocks(l: Ledger, raid: RaidId, side: Side, at: int, w: Wallet)
    requires Inv(l) && IsActive(l, raid)
    ensures PoolAgrees(l.bets, raid, l.pools[raid])
    ensures LockedAmount(Close(l, raid, side, at), w) == LockedAmount(l, w) - StakeOn(l, raid, w)
  {
    hide SumAmounts, BetsOf, Indexed, BetsPooled, OneBetPerWallet, Close;
    var ids := l.pools[raid].attackerBets;
    assert PoolAgrees(l.bets, raid, l.pools[raid]);
    ClosedLocks(l, raid, side, at, w);
    if i :| 0 <= i < |ids| && ids[i].wallet == w && StakeOn(l, raid, w) == l.bets[ids[i]].amount {
      OnlyBetOf(ids, i, LockedBets(l, w), w);
      TotalDrop(LockedBets(l, w), ids[i]);
    } else {
      assert LockedBets(Close(l, raid, side, at), w) == LockedBets(l, w);
    }
  }

  /** Cleanup never touches a locked bet. */
  lemma CleanupUnlocksNothing(l: Ledger, now: int, maxAge: int, w: Wallet)
    requires Inv(l)
    ensures LockedAmount(Without(l, StalePools(l, now, maxAge)), w) == LockedAmount(l, w)
  {
    hide SumAmounts, BetsOf, Indexed, OneBetPerWallet;
    var l' := Without(l, StalePools(l, now, maxAge));
    forall id | id in l.bets && l.bets[id].status.Locked? ensures id in l'.bets {
      assert PoolAgrees(l.bets, id.raid, l.pools[id.raid]);
    }
    assert LockedBets(l', w) == LockedBets(l, w);
  }

  // ----- What is locked in all -----

  function AllLocked(l: Ledger): map<BetId, real> {
    map id | id in l.bets && l.bets[id].status.Locked? :: l.bets[id].amount
  }

  function ActiveTotals(l: Ledger): map<RaidId, real> {
    map r | r in l.pools && l.pools[r].resolvedAt.None? :: l.pools[r].total
  }

  lemma {:induction false} TotalOfPool(bets: map<BetId, Bet>, ids: seq<BetId>, m: map<BetId, real>)
    requires OneBetPerWallet(ids)
    requires forall id :: id in ids ==> id in bets && id in m && m[id] == bets[id].amount
    ensures Total(m) == SumAmounts(BetsOf(bets, ids)) + Total(map id | id in m && id !in ids :: m[id])
  {
    if ids == [] {
      assert (map id | id in m && id !in ids :: m[id]) == m;
    } else {
      var n := |ids| - 1;
      var rest := map id | id in m && id !in ids[..n] :: m[id];
      TotalOfPool(bets, ids[..n], m);
      assert BetsOf(bets, ids)[..n] == BetsOf(bets, ids[..n]);
      assert ids[n] !in ids[..n];
      TotalDrop(rest, ids[n]);
      assert (map id | id in m && id !in ids :: m[id]) == rest - {ids[n]};
    }
  }

  lemma DropPoolLocks(l: Ledger, r: RaidId)
    requires BetsPooled(l) && r in l.pools && forall id :: id in l.pools[r].attackerBets ==> id.raid == r
    ensures AllLocked(Without(l, {r}))
            == map id | id in AllLocked(l) && id !in l.pools[r].attackerBets :: AllLocked(l)[id]
  {
    forall id | id in l.bets ensures id.raid == r <==> id in l.pools[r].attackerBets {
      assert InItsPool(l, id);
    }
  }

  /** Dropping one pool takes its bets, and its total if active, out of both sums. */
  lemma DropPool(l: Ledger, r: RaidId)
    requires Inv(l) && r in l.pools
    ensures Total(AllLocked(l)) - Total(AllLocked(Without(l, {r})))
            == Total(ActiveTotals(l)) - Total(ActiveTotals(Without(l, {r})))
  {
    hide Indexed, BetsOf, SumAmounts, OneBetPerWallet, BetsPooled;
    var l', p := Without(l, {r}), l.pools[r];
    assert PoolAgrees(l.bets, r, p);
    assert ActiveTotals(l') == ActiveTotals(l) - {r};
    TotalDrop(ActiveTotals(l), r);
    hide Without;
    DropPoolLocks(l, r);
    if p.resolvedAt.None? {
      TotalOfPool(l.bets, p.attackerBets, AllLocked(l));
    } else {
      assert AllLocked(l') == AllLocked(l);
    }
  }

  /** The pools' running totals, added over the active pools, are the locked bets of all wallets. */
  lemma {:induction false} PoolTotalsAreLockedBets(l: Ledger)
    requires Inv(l)
    ensures Total(ActiveTotals(l)) == Total(AllLocked(l))
    decreases |l.pools|
  {
    if l.pools == map[] {
      hide Indexed, PoolAgrees;
      assert forall id :: id in l.bets ==> InItsPool(l, id);
      assert AllLocked(l) == map[] && ActiveTotals(l) == map[];
    } else {
      hide Inv, Without;
      var r :| r in l.pools;
      DropPool(l, r);
      WithoutKeepsInv(l, {r});
      SmallerWithout(l, r);
      PoolTotalsAreLockedBets(Without(l, {r}));
    }
  }

  lemma SmallerWithout(l: Ledger, r: RaidId)
    requires r in l.pools
    ensures |Without(l, {r}).pools| < |l.pools|
  {
  }

  // ----- Dropping pools one by one -----

  function Placed(ids: seq<BetId>): set<BetId> {
    set id | id in ids
  }

  lemma KnownBets(l: Ledger, raid: RaidId)
    requires Inv(l) && raid in l.pools
    ensures PoolAgrees(l.bets, raid, l.pools[raid])
    ensures forall id :: id in l.pools[raid].attackerBets ==> id in l.bets
    ensures BetsIn(l, {raid}) == Placed(l.pools[raid].attackerBets)
  {
    hide BetsOf, Indexed, SumAmounts;
    assert PoolAgrees(l.bets, raid, l.pools[raid]);
    forall id | id in BetsIn(l, {raid}) ensures id in Placed(l.pools[raid].attackerBets) {
      assert InItsPool(l, id);
    }
  }

  /** Cleaning up leaves exactly the open pools and those resolved no longer than `maxAge` ago. */
  lemma StaleAreGone(l: Ledger, now: int, maxAge: int)
    ensures forall r :: r in Without(l, StalePools(l, now, maxAge)).pools <==>
              r in l.pools && (l.pools[r].resolvedAt.Some? ==> now - l.pools[r].resolvedAt.value <= maxAge)
  {
    hide Prune, BetsIn;
  }

  lemma WithoutNothing(l: Ledger)
    requires Inv(l)
    ensures Without(l, {}) == l
  {
    hide PoolAgrees, BetsPooled;
    assert BetsIn(l, {}) == {};
    assert forall w :: w in l.byWallet ==> l.byWallet[w] - {} == l.byWallet[w];
    assert Prune(l.byWallet, {}) == l.byWallet;
  }

  lemma PruneTwice(byWallet: map<Wallet, set<BetId>>, a: set<BetId>, b: set<BetId>)
    ensures Prune(Prune(byWallet, a), b) == Prune(byWallet, a + b)
  {
    assert forall w :: w in byWallet ==> byWallet[w] - a - b == byWallet[w] - (a + b);
  }

  lemma WithoutMore(l: Ledger, gone: set<RaidId>, raid: RaidId)
    ensures Without(Without(l, gone), {raid}) == Without(l, gone + {raid})
  {
    hide Prune;
    var l' := Without(l, gone);
    PruneTwice(l.byWallet, BetsIn(l, gone), BetsIn(l', {raid}));
    assert BetsIn(l, gone + {raid}) == BetsIn(l, gone) + BetsIn(l', {raid});
  }

  /** One bet leaves the per-wallet index: only its own wallet's entry changes. */
  lemma PruneOne(byWallet: map<Wallet, set<BetId>>, id: BetId)
    requires forall w :: w in byWallet ==> byWallet[w] != {} && (id in byWallet[w] ==> w == id.wallet)
    ensures Prune(byWallet, {id})
            == if id.wallet !in byWallet then byWallet
               else if byWallet[id.wallet] - {id} == {} then byWallet - {id.wallet}
               else byWallet[id.wallet := byWallet[id.wallet] - {id}]
  {
    assert forall w :: w in byWallet && w != id.wallet ==> byWallet[w] - {id} == byWallet[w];
  }

  lemma PruneMore(l: Ledger, done: seq<BetId>, id: BetId)
    requires Indexed(l)
    ensures var before := Prune(l.byWallet, Placed(done));
            Prune(l.byWallet, Placed(done + [id]))
            == if id.wallet !in before then before
               else if before[id.wallet] - {id} == {} then before - {id.wallet}
               else before[id.wallet := before[id.wallet] - {id}]
  {
    var before := Prune(l.byWallet, Placed(done));
    PruneTwice(l.byWallet, Placed(done), {id});
    assert Placed(done + [id]) == Placed(done) + {id};
    forall w | w in before ensures before[w] != {} && (id in before[w] ==> w == id.wallet) {
      assert id in BetsOfWallet(l.byWallet, w) <==> id in l.bets && id.wallet == w;
    }
    PruneOne(before, id);
  }

  lemma NothingSettled(bets: map<BetId, Bet>, placed: seq<Payout>, ids: seq<BetId>, status: BetStatus, split: LossSplit)
    ensures WithStatus(bets, ids[..0], status) == bets
    ensures SumAmounts(placed[..0]) == 0.0
    ensures SumBetShares(placed[..0], split.defenderBps) == SumBetShares(placed[..0], split.recirculateBps) == 0.0
  {
  }

  lemma PlacedBets(bets: map<BetId, Bet>, ids: seq<BetId>)
    requires forall id :: id in ids ==> id in bets
    ensures |BetsOf(bets, ids)| == |ids|
    ensures forall i :: 0 <= i < |ids| ==> BetsOf(bets, ids)[i] == PayoutOf(bets, ids[i])
  {
  }

  lemma SumsMore(s: seq<Payout>, i: nat, split: LossSplit)
    requires i < |s|
    ensures SumAmounts(s[..i + 1]) == SumAmounts(s[..i]) + s[i].amount
    ensures forall bps :: SumBetShares(s[..i + 1], bps) == SumBetShares(s[..i], bps) + BetShare(s[i].amount, bps)
  {
    hide BetShare;
    assert s[..i + 1][..i] == s[..i];
  }

  /** One more pool of the cleanup walk. */
  lemma CleanMore(l: Ledger, gone: set<RaidId>, todo: set<RaidId>, raid: RaidId, now: int, maxAge: int)
    requires gone == StalePools(l, now, maxAge) - todo && raid in todo && raid in l.pools
    ensures raid !in gone && |gone + {raid}| == |gone| + 1
    ensures StalePools(l, now, maxAge) - (todo - {raid})
            == if Stale(l.pools[raid], now, maxAge) then gone + {raid} else gone
    ensures Without(Without(l, gone), {raid}) == Without(l, gone + {raid})
    ensures l.pools - gone - {raid} == l.pools - (gone + {raid})
  {
    hide Without;
    WithoutMore(l, gone, raid);
  }

  /** Settling the bets one by one. */
  lemma StatusMore(bets: map<BetId, Bet>, done: seq<BetId>, id: BetId, status: BetStatus)
    requires id in bets
    ensures var before := WithStatus(bets, done, status);
            && id in before && before[id].amount == bets[id].amount
            && WithStatus(bets, done + [id], status) == before[id := before[id].(status := status)]
  {
  }

  // ----- The ledger in place -----

  class BetEscrow {
    var raidPools: map<RaidId, Pool>
    var betsByWallet: map<Wallet, set<BetId>>
    var bets: map<BetId, Bet>

    ghost function Contents(): Ledger
      reads this
    {
      Ledger(raidPools, bets, betsByWallet)
    }

    constructor ()
      ensures Contents() == Ledger(map[], map[], map[])
      ensures Inv(Contents())
    {
      raidPools, betsByWallet, bets := map[], map[], map[];
    }

    /** False stands for the error on a known raid id. */
    method CreateRaidPool(raid: RaidId, target: AsteroidId, source: AsteroidId) returns (created: bool)
      requires Inv(Contents())
      modifies this
      ensures created == (raid !in old(raidPools))
      ensures Contents() == if created then CreatePool(old(Contents()), raid, target, source) else old(Contents())
      ensures Inv(Contents())
    {
      if raid in raidPools {
        return false;
      }
      CreateKeepsInv(Contents(), raid, target, source);
      raidPools := raidPools[raid := Pool(target, source, [], 0.0, None)];
      return true;
    }

    /** False stands for the errors on a missing or resolved pool and on a second bet. */
    method PlaceBet(raid: RaidId, wallet: Wallet, asteroid: AsteroidId, amount: real, now: int) returns (placed: bool)
      requires Inv(Contents())
      modifies this
      ensures placed == CanPlace(old(Contents()), raid, wallet)
      ensures placed <==>
                && raid in old(raidPools) && old(raidPools)[raid].resolvedAt.None?
                && forall i :: 0 <= i < |old(raidPools)[raid].attackerBets| ==> old(raidPools)[raid].attackerBets[i].wallet != wallet
      ensures Contents() == if placed then Place(old(Contents()), raid, wallet, asteroid, amount, now) else old(Contents())
      ensures Inv(Contents())
    {
      hide Inv;
      if raid !in raidPools || raidPools[raid].resolvedAt.Some? || HasBet(raidPools[raid].attackerBets, wallet) {
        return false;
      }
      PlaceKeepsInv(Contents(), raid, wallet, asteroid, amount, now);
      var id, pool := BetId(raid, wallet, now), raidPools[raid];
      bets := bets[id := Bet(asteroid, amount, Locked)];
      pool := pool.(attackerBets := pool.attackerBets + [id]);
      pool := pool.(total := pool.total + amount);
      raidPools := raidPools[raid := pool];
      var walletBets := if wallet in betsByWallet then betsByWallet[wallet] else {};
      betsByWallet := betsByWallet[wallet := walletBets + {id}];
      return true;
    }

    method HasLockedBets(wallet: Wallet) returns (locked: bool)
      requires Inv(Contents())
      ensures locked <==> LockedBets(Contents(), wallet) != map[]
    {
      hide PoolAgrees, BetsPooled;
      assert forall id :: id in BetsOfWallet(betsByWallet, wallet) <==> id in bets && id.wallet == wallet;
      if wallet !in betsByWallet {
        assert LockedBets(Contents(), wallet) == map[];
        return false;
      }
      var todo := betsByWallet[wallet];
      while todo != {}
        invariant todo <= betsByWallet[wallet]
        invariant forall id :: id in LockedBets(Contents(), wallet) ==> id in todo
        decreases |todo|
      {
        var id :| id in todo;
        if id in bets && bets[id].status.Locked? {
          assert id in LockedBets(Contents(), wallet);
          return true;
        }
        todo := todo - {id};
      }
      return false;
    }

    /** The walk over the per-wallet index finds everything the wallet has at stake. */
    method GetLockedBetAmount(wallet: Wallet) returns (total: real)
      requires Inv(Contents())
      ensures total == LockedAmount(Contents(), wallet)
    {
      hide PoolAgrees, BetsPooled;
      ghost var locked := LockedBets(Contents(), wallet);
      assert forall id :: id in BetsOfWallet(betsByWallet, wallet) <==> id in bets && id.wallet == wallet;
      if wallet !in betsByWallet {
        assert locked == map[];
        return 0.0;
      }
      total := 0.0;
      var todo := betsByWallet[wallet];
      while todo != {}
        invariant todo <= betsByWallet[wallet]
        invariant total == Total(locked - todo)
        decreases |todo|
      {
        var id :| id in todo;
        ghost var seen := locked - todo;
        if id in bets && bets[id].status.Locked? {
          TotalPut(seen, id, bets[id].amount);
          assert locked - (todo - {id}) == seen[id := bets[id].amount];
          total := total + bets[id].amount;
        } else {
          assert locked - (todo - {id}) == seen;
        }
        todo := todo - {id};
      }
      assert locked - {} == locked;
    }

    /** Floored, stake-weighted spoils. */
    method ShareSpoils(pool: real, stakes: seq<Payout>) returns (payouts: seq<Payout>, delivered: real)
      ensures payouts == SpoilsOf(stakes, pool) && delivered == SumAmounts(payouts)
    {
      hide SpoilsShare, Spoils;
      payouts, delivered := [], 0.0;
      if pool <= 0.0 {
        return;
      }
      var totalStake := 0.0;
      for i := 0 to |stakes|
        invariant totalStake == SumAmounts(stakes[..i])
      {
        assert stakes[..i + 1][..i] == stakes[..i];
        totalStake := totalStake + stakes[i].amount;
      }
      assert stakes[..|stakes|] == stakes;
      if totalStake <= 0.0 {
        return;
      }
      NoSpoils(totalStake, pool);
      for i := 0 to |stakes|
        invariant payouts == Spoils(stakes[..i], totalStake, pool) && delivered == SumAmounts(payouts)
      {
        OneMoreSpoil(stakes, i, totalStake, pool);
        var share := SpoilsShare(stakes[i].amount, totalStake, pool);
        if share > 0.0 {
          SumAmountsAppend(payouts, Payout(stakes[i].wallet, share));
          payouts := payouts + [Payout(stakes[i].wallet, share)];
          delivered := delivered + share;
        }
      }
    }

    /** `None` stands for the errors on a missing or resolved pool. */
    method ResolveRaid(raid: RaidId, side: Side, stakes: seq<Payout>, split: LossSplit, now: int)
      returns (r: Option<Resolution>)
      requires Inv(Contents())
      modifies this
      ensures r.Some? == IsActive(old(Contents()), raid)
      ensures r.None? ==> Contents() == old(Contents())
      ensures r.Some? ==> PoolAgrees(old(bets), raid, old(raidPools)[raid])
      ensures r.Some? ==> Contents() == Close(old(Contents()), raid, side, now)
      ensures r.Some? ==> r.value == Resolve(BetsOf(old(bets), old(raidPools)[raid].attackerBets), side, stakes, split)
      ensures Inv(Contents())
    {
      hide Inv, PoolAgrees;
      if raid !in raidPools || raidPools[raid].resolvedAt.Some? {
        return None;
      }
      CloseKeepsInv(Contents(), raid, side, now);
      var ids := raidPools[raid].attackerBets;
      KnownBets(Contents(), raid);
      ghost var placed := BetsOf(bets, ids);
      var returned, forfeited, defenderPool, recirculate, winners := SettleBets(ids, side, split);
      assert Contents() == old(Contents()).(bets := WithStatus(old(bets), ids, Outcome(side)));
      var spoils, delivered := [], 0.0;
      if side.Defender? {
        spoils, delivered := ShareSpoils(defenderPool, stakes);
        var undelivered := defenderPool - delivered;
        recirculate := recirculate + undelivered;
        r := Some(Resolution(side, 0.0, delivered, recirculate, forfeited - delivered - recirculate, [], spoils));
      } else {
        r := Some(Resolution(side, returned, 0.0, 0.0, 0.0, winners, []));
      }
      raidPools := raidPools[raid := raidPools[raid].(resolvedAt := Some(now))];
    }

    /** The loop over the pool's bets: statuses and the three running sums. */
    method SettleBets(ids: seq<BetId>, side: Side, split: LossSplit)
      returns (returned: real, forfeited: real, defenderPool: real, recirculate: real, winners: seq<Payout>)
      requires forall id :: id in ids ==> id in bets
      modifies this`bets
      ensures bets == WithStatus(old(bets), ids, Outcome(side))
      ensures side.Attacker? ==> winners == BetsOf(old(bets), ids) && returned == SumAmounts(winners)
      ensures side.Defender? ==>
                && forfeited == SumAmounts(BetsOf(old(bets), ids))
                && defenderPool == SumBetShares(BetsOf(old(bets), ids), split.defenderBps)
                && recirculate == SumBetShares(BetsOf(old(bets), ids), split.recirculateBps)
    {
      hide BetShare, WithStatus, BetsOf, SumAmounts, SumBetShares;
      ghost var placed := BetsOf(bets, ids);
      NothingSettled(bets, placed, ids, Outcome(side), split);
      PlacedBets(bets, ids);
      returned, forfeited, defenderPool, recirculate, winners := 0.0, 0.0, 0.0, 0.0, [];
      for i := 0 to |ids|
        invariant bets == WithStatus(old(bets), ids[..i], Outcome(side))
        invariant side.Attacker? ==> winners == placed[..i] && returned == SumAmounts(placed[..i])
        invariant side.Defender? ==>
                    && forfeited == SumAmounts(placed[..i])
                    && defenderPool == SumBetShares(placed[..i], split.defenderBps)
                    && recirculate == SumBetShares(placed[..i], split.recirculateBps)
      {
        StatusMore(old(bets), ids[..i], ids[i], Outcome(side));
        assert ids[..i + 1] == ids[..i] + [ids[i]];
        assert placed[i] == PayoutOf(old(bets), ids[i]);
        SumsMore(placed, i, split);
        var bet := bets[ids[i]];
        bets := bets[ids[i] := bet.(status := Outcome(side))];
        if side.Attacker? {
          returned := returned + bet.amount;
          winners := winners + [Payout(ids[i].wallet, bet.amount)];
        } else {
          forfeited := forfeited + bet.amount;
          defenderPool := defenderPool + BetShare(bet.amount, split.defenderBps);
          recirculate := recirculate + BetShare(bet.amount, split.recirculateBps);
        }
      }
      assert placed[..|ids|] == placed && ids[..|ids|] == ids;
    }

    method CleanupResolvedPools(now: int, maxAge: int) returns (cleaned: nat)
      requires Inv(Contents())
      modifies this
      ensures Contents() == Without(old(Contents()), StalePools(old(Contents()), now, maxAge))
      ensures cleaned == |StalePools(old(Contents()), now, maxAge)|
      ensures forall r :: r in raidPools <==>
                r in old(raidPools) && (old(raidPools)[r].resolvedAt.Some? ==> now - old(raidPools)[r].resolvedAt.value <= maxAge)
      ensures Inv(Contents())
    {
      hide Inv, Without, StalePools, Stale;
      StaleAreGone(Contents(), now, maxAge);
      cleaned := 0;
      ghost var l := Contents();
      ghost var stale := StalePools(l, now, maxAge);
      ghost var gone: set<RaidId> := {};
      WithoutNothing(l);
      var todo := raidPools.Keys;
      while todo != {}
        invariant gone == stale - todo && cleaned == |gone|
        invariant todo <= raidPools.Keys
        invariant raidPools == l.pools - gone && Contents() == Without(l, gone) && Inv(Contents())
        decreases |todo|
      {
        var raid :| raid in todo;
        CleanMore(l, gone, todo, raid, now, maxAge);
        if Stale(raidPools[raid], now, maxAge) {
          DropBets(raid);
          gone := gone + {raid};
          cleaned := cleaned + 1;
        }
        todo := todo - {raid};
      }
      assert gone == stale;
    }

    /** Drops one pool and its bets from all three indexes. */
    method DropBets(raid: RaidId)
      requires Inv(Contents()) && raid in raidPools
      modifies this
      ensures raidPools == old(raidPools) - {raid}
      ensures Contents() == Without(old(Contents()), {raid}) && Inv(Contents())
    {
      hide PoolAgrees, BetsPooled, Indexed, Prune;
      ghost var l := Contents();
      var ids := raidPools[raid].attackerBets;
      KnownBets(l, raid);
      assert Placed(ids[..0]) == {};
      WithoutNothing(l);
      assert Without(l, {}).byWallet == Prune(l.byWallet, {}) by {
        assert BetsIn(l, {}) == {};
      }
      for i := 0 to |ids|
        invariant bets == l.bets - Placed(ids[..i]) && betsByWallet == Prune(l.byWallet, Placed(ids[..i]))
        invariant raidPools == l.pools
      {
        PruneMore(l, ids[..i], ids[i]);
        var wallet := ids[i].wallet;
        if wallet in betsByWallet {
          var left := betsByWallet[wallet] - {ids[i]};
          betsByWallet := if left == {} then betsByWallet - {wallet} else betsByWallet[wallet := left];
        }
        bets := bets - {ids[i]};
        assert ids[..i + 1] == ids[..i] + [ids[i]];
      }
      assert ids[..|ids|] == ids;
      raidPools := raidPools - {raid};
      WithoutKeepsInv(l, {raid});
    }
  }
}
