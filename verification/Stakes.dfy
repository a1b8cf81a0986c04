/** In-game stakes: the wallet totals, the asteroid totals, and the syndicate founding burn. */
module Stakes {
  import opened Prelude
  import opened Sorting

  datatype StakeRecord = StakeRecord(asteroid: AsteroidId, amount: real)

  /** `totals` are the miner states' `totalStake`, `onAsteroid` the registered asteroids' `totalStake`. */
  datatype Holdings = Holdings(stakes: map<Wallet, seq<StakeRecord>>, totals: map<Wallet, real>, onAsteroid: map<AsteroidId, real>)

  const SYNDICATE_CREATION_COST := 1000.0

  // ----- One wallet's records -----

  /** `findIndex`: the first record at the asteroid, or the length. */
  function Position(s: seq<StakeRecord>, a: AsteroidId): (i: nat)
    ensures i <= |s| && (i < |s| ==> s[i].asteroid == a)
    ensures forall j :: 0 <= j < i ==> s[j].asteroid != a
  {
    if s == [] || s[0].asteroid == a then 0 else 1 + Position(s[1..], a)
  }

  function AmountAt(s: seq<StakeRecord>, a: AsteroidId): real {
    if Position(s, a) < |s| then s[Position(s, a)].amount else 0.0
  }

  function SumStakes(s: seq<StakeRecord>): real {
    if s == [] then 0.0 else SumStakes(s[..|s| - 1]) + s[|s| - 1].amount
  }

  function StakedIn(s: seq<StakeRecord>, a: AsteroidId, amount: real): seq<StakeRecord> {
    var i := Position(s, a);
    if i < |s| then s[i := StakeRecord(a, s[i].amount + amount)] else s + [StakeRecord(a, amount)]
  }

  /** What an unstake of `amount` takes: never more than the record holds. */
  function Effective(s: seq<StakeRecord>, a: AsteroidId, amount: real): real {
    if Position(s, a) < |s| then Min(amount, AmountAt(s, a)) else 0.0
  }

  function UnstakedIn(s: seq<StakeRecord>, a: AsteroidId, amount: real): seq<StakeRecord> {
    var i := Position(s, a);
    if i == |s| then s
    else
      var left := s[i].amount - Min(amount, s[i].amount);
      if left <= 0.0 then s[..i] + s[i + 1..] else s[i := StakeRecord(a, left)]
  }

  // ----- Operations -----

  function RecordsOf(h: Holdings, w: Wallet): seq<StakeRecord> {
    if w in h.stakes then h.stakes[w] else []
  }

  /** The registry's clamped update; unknown asteroids are ignored. */
  function Adjusted(onAsteroid: map<AsteroidId, real>, a: AsteroidId, delta: real): map<AsteroidId, real> {
    if a in onAsteroid then onAsteroid[a := Max(0.0, onAsteroid[a] + delta)] else onAsteroid
  }

  predicate CanStake(h: Holdings, a: AsteroidId, amount: real) {
    amount > 0.0 && a in h.onAsteroid
  }

  function AfterStake(h: Holdings, w: Wallet, a: AsteroidId, amount: real): Holdings {
    Holdings(h.stakes[w := StakedIn(RecordsOf(h, w), a, amount)], h.totals[w := Held(h.totals, w) + amount],
             Adjusted(h.onAsteroid, a, amount))
  }

  predicate CanUnstake(h: Holdings, w: Wallet, a: AsteroidId) {
    w in h.stakes && Position(h.stakes[w], a) < |h.stakes[w]|
  }

  function AfterUnstake(h: Holdings, w: Wallet, a: AsteroidId, amount: real): Holdings {
    if !CanUnstake(h, w, a) then h
    else
      var taken := Effective(h.stakes[w], a, amount);
      Holdings(h.stakes[w := UnstakedIn(h.stakes[w], a, amount)], h.totals[w := Held(h.totals, w) - taken],
               Adjusted(h.onAsteroid, a, -taken))
  }

  // ----- Double entry -----

  ghost predicate OnePerAsteroid(s: seq<StakeRecord>) {
    forall i, j :: 0 <= i < j < |s| ==> s[i].asteroid != s[j].asteroid
  }

  ghost predicate AllReal(known: set<AsteroidId>, s: seq<StakeRecord>) {
    forall i :: 0 <= i < |s| ==> s[i].amount > 0.0 && s[i].asteroid in known
  }

  ghost predicate GoodRecords(h: Holdings, s: seq<StakeRecord>) {
    OnePerAsteroid(s) && AllReal(h.onAsteroid.Keys, s)
  }

  function StakesAt(stakes: map<Wallet, seq<StakeRecord>>, a: AsteroidId): map<Wallet, real> {
    map w | w in stakes :: AmountAt(stakes[w], a)
  }

  ghost predicate RecordsGood(h: Holdings) {
    forall w :: w in h.stakes ==> GoodRecords(h, h.stakes[w])
  }

  /** Each wallet's total is the sum of its records. */
  ghost predicate WalletsAgree(h: Holdings) {
    forall w :: Held(h.totals, w) == SumStakes(RecordsOf(h, w))
  }

  /** Each asteroid's total is the sum over all wallets. */
  ghost predicate AsteroidsAgree(h: Holdings) {
    forall a :: a in h.onAsteroid ==> h.onAsteroid[a] == Total(StakesAt(h.stakes, a))
  }

  ghost predicate Inv(h: Holdings) {
    RecordsGood(h) && WalletsAgree(h) && AsteroidsAgree(h)
  }

  lemma {:induction false} SumReplace(s: seq<StakeRecord>, i: nat, r: StakeRecord)
    requires i < |s|
    ensures SumStakes(s[i := r]) == SumStakes(s) - s[i].amount + r.amount
  {
    var n := |s| - 1;
    if i < n {
      SumReplace(s[..n], i, r);
      assert s[i := r][..n] == s[..n][i := r];
    } else {
      assert s[i := r][..n] == s[..n];
    }
  }

  lemma {:induction false} SumSplice(s: seq<StakeRecord>, i: nat)
    requires i < |s|
    ensures SumStakes(s[..i] + s[i + 1..]) == SumStakes(s) - s[i].amount
  {
    var n := |s| - 1;
    if i < n {
      SumSplice(s[..n], i);
      assert (s[..i] + s[i + 1..])[..n - 1] == s[..n][..i] + s[..n][i + 1..];
    } else {
      assert s[..i] + s[i + 1..] == s[..n];
    }
  }

  lemma SumAppend(s: seq<StakeRecord>, r: StakeRecord)
    ensures SumStakes(s + [r]) == SumStakes(s) + r.amount
  {
    assert (s + [r])[..|s|] == s;
  }

  /** A position is pinned down by its record. */
  lemma PositionIs(s: seq<StakeRecord>, a: AsteroidId, i: nat)
    requires i <= |s| && (i < |s| ==> s[i].asteroid == a) && forall j :: 0 <= j < i ==> s[j].asteroid != a
    ensures Position(s, a) == i
  {
  }

  lemma StakedKeepsRecords(known: set<AsteroidId>, s: seq<StakeRecord>, a: AsteroidId, amount: real)
    requires OnePerAsteroid(s) && AllReal(known, s) && amount > 0.0 && a in known
    ensures OnePerAsteroid(StakedIn(s, a, amount)) && AllReal(known, StakedIn(s, a, amount))
    ensures SumStakes(StakedIn(s, a, amount)) == SumStakes(s) + amount
  {
    hide SumStakes, Position;
    var i := Position(s, a);
    if i < |s| {
      SumReplace(s, i, StakeRecord(a, s[i].amount + amount));
    } else {
      SumAppend(s, StakeRecord(a, amount));
    }
  }

  lemma StakedAmount(s: seq<StakeRecord>, a: AsteroidId, amount: real, b: AsteroidId)
    ensures AmountAt(StakedIn(s, a, amount), b) == AmountAt(s, b) + (if b == a then amount else 0.0)
  {
    var i, s' := Position(s, a), StakedIn(s, a, amount);
    var k := Position(s, b);
    hide Position;
    PositionIs(s', b, if k < |s| then k else if b == a then |s| else |s'|);
  }

  lemma UnstakedKeepsRecords(known: set<AsteroidId>, s: seq<StakeRecord>, a: AsteroidId, amount: real)
    requires OnePerAsteroid(s) && AllReal(known, s) && Position(s, a) < |s|
    ensures OnePerAsteroid(UnstakedIn(s, a, amount)) && AllReal(known, UnstakedIn(s, a, amount))
  {
    hide Position;
  }

  lemma UnstakedSum(s: seq<StakeRecord>, a: AsteroidId, amount: real)
    requires Position(s, a) < |s|
    ensures SumStakes(UnstakedIn(s, a, amount)) == SumStakes(s) - Effective(s, a, amount)
  {
    hide SumStakes, Position;
    var i := Position(s, a);
    var left := s[i].amount - Min(amount, s[i].amount);
    if left <= 0.0 {
      SumSplice(s, i);
    } else {
      SumReplace(s, i, StakeRecord(a, left));
    }
  }

  lemma UnstakedAmount(s: seq<StakeRecord>, a: AsteroidId, amount: real, b: AsteroidId)
    requires OnePerAsteroid(s) && Position(s, a) < |s|
    ensures AmountAt(UnstakedIn(s, a, amount), b) == AmountAt(s, b) - (if b == a then Effective(s, a, amount) else 0.0)
    ensures Effective(s, a, amount) <= AmountAt(s, a)
  {
    hide AmountAt, Position, OnePerAsteroid;
    var i := Position(s, a);
    var left := s[i].amount - Min(amount, s[i].amount);
    AmountOfRecord(s, i);
    if left <= 0.0 {
      SplicedAmount(s, a, i, b);
    } else {
      ReplacedAmount(s, i, left, b);
    }
  }

  lemma ReplacedAmount(s: seq<StakeRecord>, i: nat, left: real, b: AsteroidId)
    requires OnePerAsteroid(s) && i < |s|
    ensures AmountAt(s[i := StakeRecord(s[i].asteroid, left)], b) == if b == s[i].asteroid then left else AmountAt(s, b)
  {
    PositionIs(s, s[i].asteroid, i);
    var k := Position(s, b);
    hide Position;
    PositionIs(s[i := StakeRecord(s[i].asteroid, left)], b, k);
  }

  lemma SplicedAmount(s: seq<StakeRecord>, a: AsteroidId, i: nat, b: AsteroidId)
    requires OnePerAsteroid(s) && i < |s| && s[i].asteroid == a
    ensures AmountAt(s[..i] + s[i + 1..], b) == if b == a then 0.0 else AmountAt(s, b)
  {
    var s', k := s[..i] + s[i + 1..], Position(s, b);
    hide Position;
    PositionIs(s', b, if b == a then |s'| else if k < i then k else k - 1);
  }

  /** One wallet's records change: every asteroid's sum moves by that wallet's difference. */
  lemma AsteroidMoves(h: Holdings, w: Wallet, s: seq<StakeRecord>, a: AsteroidId)
    ensures Total(StakesAt(h.stakes[w := s], a))
            == Total(StakesAt(h.stakes, a)) - AmountAt(RecordsOf(h, w), a) + AmountAt(s, a)
  {
    hide AmountAt;
    assert StakesAt(h.stakes[w := s], a) == StakesAt(h.stakes, a)[w := AmountAt(s, a)];
    TotalPut(StakesAt(h.stakes, a), w, AmountAt(s, a));
    NoRecords(a);
  }

  lemma NoRecords(a: AsteroidId)
    ensures AmountAt([], a) == 0.0
  {
  }

  lemma AsteroidSumNonNegative(h: Holdings, a: AsteroidId)
    requires RecordsGood(h)
    ensures Total(StakesAt(h.stakes, a)) >= 0.0
  {
    hide Position;
    forall w | w in h.stakes ensures AmountAt(h.stakes[w], a) >= 0.0 {
      assert GoodRecords(h, h.stakes[w]);
    }
    TotalNonNegative(StakesAt(h.stakes, a));
  }

  /** The general step: wallet `w`'s records at `a` change by `delta`, and nothing else does. */
  lemma MoveKeepsInv(h: Holdings, w: Wallet, s: seq<StakeRecord>, a: AsteroidId, delta: real)
    requires Inv(h) && a in h.onAsteroid && GoodRecords(h, s)
    requires SumStakes(s) == SumStakes(RecordsOf(h, w)) + delta
    requires forall b :: AmountAt(s, b) == AmountAt(RecordsOf(h, w), b) + (if b == a then delta else 0.0)
    ensures h.onAsteroid[a] + delta >= 0.0
    ensures Inv(Holdings(h.stakes[w := s], h.totals[w := Held(h.totals, w) + delta], Adjusted(h.onAsteroid, a, delta)))
  {
    hide AmountAt, OnePerAsteroid, AllReal, SumStakes, StakesAt;
    var h1 := h.(stakes := h.stakes[w := s]);
    assert RecordsGood(h1);
    AsteroidSumNonNegative(h1, a);
    AsteroidMoves(h, w, s, a);
    var h' := Holdings(h1.stakes, h.totals[w := Held(h.totals, w) + delta], Adjusted(h.onAsteroid, a, delta));
    assert h'.onAsteroid.Keys == h.onAsteroid.Keys;
    forall v | v in h'.stakes ensures GoodRecords(h', h'.stakes[v]) {
      assert GoodRecords(h1, h'.stakes[v]);
    }
    forall v ensures Held(h'.totals, v) == SumStakes(RecordsOf(h', v)) {
      assert Held(h.totals, v) == SumStakes(RecordsOf(h, v));
    }
    forall b | b in h'.onAsteroid ensures h'.onAsteroid[b] == Total(StakesAt(h'.stakes, b)) {
      AsteroidMoves(h, w, s, b);
    }
  }

  lemma StakeKeepsInv(h: Holdings, w: Wallet, a: AsteroidId, amount: real)
    requires Inv(h) && CanStake(h, a, amount)
    ensures Inv(AfterStake(h, w, a, amount))
  {
    hide AmountAt, StakedIn, SumStakes, WalletsAgree, AsteroidsAgree;
    var s := RecordsOf(h, w);
    StakedKeepsRecords(h.onAsteroid.Keys, s, a, amount);
    forall b ensures AmountAt(StakedIn(s, a, amount), b) == AmountAt(s, b) + (if b == a then amount else 0.0) {
      StakedAmount(s, a, amount, b);
    }
    MoveKeepsInv(h, w, StakedIn(s, a, amount), a, amount);
  }

  lemma KnownAsteroid(h: Holdings, w: Wallet, a: AsteroidId)
    requires RecordsGood(h) && CanUnstake(h, w, a)
    ensures a in h.onAsteroid
  {
    assert GoodRecords(h, h.stakes[w]);
  }

  /** Unstaking keeps both entries exact; the clamps of wallet record and asteroid total lose nothing. */
  lemma UnstakeKeepsInv(h: Holdings, w: Wallet, a: AsteroidId, amount: real)
    requires Inv(h)
    ensures Inv(AfterUnstake(h, w, a, amount))
    ensures CanUnstake(h, w, a) ==>
              && a in h.onAsteroid
              && AfterUnstake(h, w, a, amount).onAsteroid[a] == h.onAsteroid[a] - Effective(h.stakes[w], a, amount)
  {
    hide AmountAt, UnstakedIn, SumStakes, WalletsAgree, AsteroidsAgree, Effective, Position;
    if CanUnstake(h, w, a) {
      var s := h.stakes[w];
      KnownAsteroid(h, w, a);
      UnstakedKeepsRecords(h.onAsteroid.Keys, s, a, amount);
      UnstakedSum(s, a, amount);
      forall b ensures AmountAt(UnstakedIn(s, a, amount), b)
                       == AmountAt(s, b) + (if b == a then -Effective(s, a, amount) else 0.0) {
        UnstakedAmount(s, a, amount, b);
      }
      MoveKeepsInv(h, w, UnstakedIn(s, a, amount), a, -Effective(s, a, amount));
    }
  }

  /** An unstake takes what was asked for, or all there is, from the wallet's total and its record. */
  lemma UnstakeTakes(h: Holdings, w: Wallet, a: AsteroidId, amount: real)
    requires Inv(h)
    ensures CanUnstake(h, w, a) ==>
              var h' := AfterUnstake(h, w, a, amount); var taken := Min(amount, AmountAt(h.stakes[w], a));
              && w in h'.stakes
              && Held(h'.totals, w) == Held(h.totals, w) - taken
              && AmountAt(h'.stakes[w], a) == AmountAt(h.stakes[w], a) - taken
              && forall b :: b != a ==> AmountAt(h'.stakes[w], b) == AmountAt(h.stakes[w], b)
  {
    hide WalletsAgree, AsteroidsAgree, AllReal, AmountAt, Position, UnstakedIn, OnePerAsteroid;
    if CanUnstake(h, w, a) {
      assert GoodRecords(h, h.stakes[w]);
      forall b ensures AmountAt(UnstakedIn(h.stakes[w], a, amount), b)
                       == AmountAt(h.stakes[w], b) - (if b == a then Effective(h.stakes[w], a, amount) else 0.0) {
        UnstakedAmount(h.stakes[w], a, amount, b);
      }
    }
  }

  // ----- The founding burn -----

  function AmountKey(r: StakeRecord): real {
    r.amount
  }

  /** The records largest first, as they stand when the burn begins. */
  function LargestFirst(s: seq<StakeRecord>): seq<StakeRecord> {
    SortDescending(s, AmountKey)
  }

  /** What is left to burn after the first `i` records. */
  function Left(order: seq<StakeRecord>, i: nat, cost: real): real
    requires i <= |order|
  {
    Max(0.0, cost - SumStakes(order[..i]))
  }

  /** How much of record `i` the burn takes. */
  function Burned(order: seq<StakeRecord>, i: nat, cost: real): real
    requires i < |order|
  {
    Min(order[i].amount, Left(order, i, cost))
  }

  lemma RemoveOne(t: seq<StakeRecord>, i: nat)
    requires i < |t|
    ensures multiset(t[..i] + t[i + 1..]) == multiset(t) - multiset{t[i]}
  {
    assert t == t[..i] + [t[i]] + t[i + 1..];
  }

  lemma {:induction false} SumByMultiset(s: seq<StakeRecord>, t: seq<StakeRecord>)
    requires multiset(s) == multiset(t)
    ensures SumStakes(s) == SumStakes(t) && |s| == |t|
  {
    assert |s| == |multiset(s)| == |multiset(t)| == |t|;
    if s != [] {
      var n, last := |s| - 1, s[|s| - 1];
      assert s == s[..n] + [last];
      assert last in multiset(t);
      var i :| 0 <= i < |t| && t[i] == last;
      RemoveOne(t, i);
      SumByMultiset(s[..n], t[..i] + t[i + 1..]);
      SumSplice(t, i);
    }
  }

  /** Reordering keeps a wallet's records recognisable. */
  lemma LargestFirstIs(s: seq<StakeRecord>)
    requires OnePerAsteroid(s)
    ensures SumStakes(LargestFirst(s)) == SumStakes(s)
    ensures OnePerAsteroid(LargestFirst(s)) && Descending(LargestFirst(s), AmountKey)
    ensures forall i :: 0 <= i < |LargestFirst(s)| ==> AmountAt(s, LargestFirst(s)[i].asteroid) == LargestFirst(s)[i].amount
  {
    hide SumStakes, AmountAt;
    var order := LargestFirst(s);
    SortSorts(s, AmountKey);
    SumByMultiset(order, s);
    forall i | 0 <= i < |order| ensures AmountAt(s, order[i].asteroid) == order[i].amount {
      assert order[i] in multiset(order);
      assert order[i] in multiset(s);
      var k :| 0 <= k < |s| && s[k] == order[i];
      AmountOfRecord(s, k);
    }
    forall i, j | 0 <= i < j < |order| ensures order[i].asteroid != order[j].asteroid {
      DistinctRecords(s, order, i, j);
    }
  }

  lemma AmountOfRecord(s: seq<StakeRecord>, k: nat)
    requires OnePerAsteroid(s) && k < |s|
    ensures AmountAt(s, s[k].asteroid) == s[k].amount
  {
    PositionIs(s, s[k].asteroid, k);
  }

  lemma DistinctRecords(s: seq<StakeRecord>, order: seq<StakeRecord>, i: nat, j: nat)
    requires OnePerAsteroid(s) && multiset(order) == multiset(s) && i < j < |order|
    ensures order[i].asteroid != order[j].asteroid
  {
    if order[i] == order[j] {
      assert order == order[..i] + [order[i]] + order[i + 1..j] + [order[j]] + order[j + 1..];
      assert multiset(order)[order[i]] >= 2;
      OnceEach(s, order[i]);
    } else {
      assert order[i] in multiset(s) && order[j] in multiset(s);
    }
  }

  lemma {:induction false} OnceEach(s: seq<StakeRecord>, r: StakeRecord)
    requires OnePerAsteroid(s)
    ensures multiset(s)[r] <= 1
  {
    if s != [] {
      var n := |s| - 1;
      OnceEach(s[..n], r);
      assert s == s[..n] + [s[n]];
      if s[n] == r {
        assert r !in s[..n];
      }
    }
  }

  lemma LeftStep(order: seq<StakeRecord>, i: nat, cost: real)
    requires i < |order| && order[i].amount > 0.0
    ensures Left(order, i + 1, cost) == Left(order, i, cost) - Burned(order, i, cost)
    ensures 0.0 <= Burned(order, i, cost) <= order[i].amount
  {
    assert order[..i + 1][..i] == order[..i];
  }

  lemma {:induction false} NothingLeft(order: seq<StakeRecord>, i: nat, j: nat, cost: real)
    requires i <= j < |order| && Left(order, i, cost) == 0.0
    requires forall k :: 0 <= k < |order| ==> order[k].amount > 0.0
    ensures Left(order, j, cost) == 0.0 && Burned(order, j, cost) == 0.0
    decreases j
  {
    hide Left, Burned;
    if i < j {
      NothingLeft(order, i, j - 1, cost);
      LeftStep(order, j - 1, cost);
    }
    NoneBurned(order, j, cost);
  }

  lemma NoneBurned(order: seq<StakeRecord>, j: nat, cost: real)
    requires j < |order| && Left(order, j, cost) == 0.0 && order[j].amount > 0.0
    ensures Burned(order, j, cost) == 0.0
  {
  }

  /** Record `j` after the first `i` records have been burned from. */
  function AmountAfter(order: seq<StakeRecord>, i: nat, j: nat, cost: real): real
    requires i <= |order| && j < |order|
  {
    if j < i then order[j].amount - Burned(order, j, cost) else order[j].amount
  }

  /** The burn after the first `i` records, largest first. */
  ghost predicate BurnedSoFar(s: seq<StakeRecord>, order: seq<StakeRecord>, i: nat, cost: real) {
    i <= |order| && forall j :: 0 <= j < |order| ==> AmountAt(s, order[j].asteroid) == AmountAfter(order, i, j, cost)
  }

  /** Everything the burn takes, taken. */
  ghost predicate BurnComplete(s: seq<StakeRecord>, order: seq<StakeRecord>, cost: real) {
    forall j :: 0 <= j < |order| ==> AmountAt(s, order[j].asteroid) == order[j].amount - Burned(order, j, cost)
  }

  lemma BurnIsComplete(s: seq<StakeRecord>, order: seq<StakeRecord>, i: nat, cost: real)
    requires BurnedSoFar(s, order, i, cost) && (i < |order| ==> Left(order, i, cost) == 0.0)
    requires forall k :: 0 <= k < |order| ==> order[k].amount > 0.0
    ensures BurnComplete(s, order, cost)
  {
    hide Left, Burned, AmountAt;
    forall j | 0 <= j < |order| ensures AmountAt(s, order[j].asteroid) == order[j].amount - Burned(order, j, cost) {
      if i <= j {
        NothingLeft(order, i, j, cost);
      }
    }
  }

  lemma PresentWhenPositive(s: seq<StakeRecord>, a: AsteroidId)
    requires AmountAt(s, a) > 0.0
    ensures Position(s, a) < |s|
  {
  }

  /** Unstaking the `i`-th largest record's part of the burn. */
  lemma BurnOne(h: Holdings, w: Wallet, order: seq<StakeRecord>, i: nat, cost: real)
    requires Inv(h) && i < |order| && order[i].amount > 0.0 && OnePerAsteroid(order)
    requires BurnedSoFar(RecordsOf(h, w), order, i, cost)
    ensures var a := order[i].asteroid; var h' := AfterUnstake(h, w, a, Burned(order, i, cost));
            && CanUnstake(h, w, a)
            && BurnedSoFar(RecordsOf(h', w), order, i + 1, cost)
            && Held(h'.totals, w) == Held(h.totals, w) - Burned(order, i, cost)
            && forall v :: v != w ==> RecordsOf(h', v) == RecordsOf(h, v)
  {
    hide Inv, AmountAt, Left, Burned, OnePerAsteroid, AllReal, Adjusted, UnstakedIn, BurnedSoFar, Position, AmountAfter, SumStakes;
    var s, a := RecordsOf(h, w), order[i].asteroid;
    StillWhole(h, w, order, i, cost);
    LeftStep(order, i, cost);
    BurnTouchesOne(s, order, i, cost);
  }

  /** The `i`-th record has not been touched by the first `i` steps. */
  lemma StillWhole(h: Holdings, w: Wallet, order: seq<StakeRecord>, i: nat, cost: real)
    requires Inv(h) && i < |order| && order[i].amount > 0.0 && BurnedSoFar(RecordsOf(h, w), order, i, cost)
    ensures var s := RecordsOf(h, w);
            OnePerAsteroid(s) && AmountAt(s, order[i].asteroid) == order[i].amount && Position(s, order[i].asteroid) < |s|
    ensures CanUnstake(h, w, order[i].asteroid)
  {
    hide AmountAt, Position, Left, Burned;
    assert AmountAt(RecordsOf(h, w), order[i].asteroid) == AmountAfter(order, i, i, cost);
    PresentWhenPositive(RecordsOf(h, w), order[i].asteroid);
    assert w in h.stakes ==> GoodRecords(h, h.stakes[w]);
  }

  lemma SameAsteroidOnlyAt(order: seq<StakeRecord>, i: nat, j: nat)
    requires OnePerAsteroid(order) && i < |order| && j < |order|
    ensures order[j].asteroid == order[i].asteroid <==> j == i
  {
  }

  lemma BurnTouchesOne(s: seq<StakeRecord>, order: seq<StakeRecord>, i: nat, cost: real)
    requires OnePerAsteroid(s) && OnePerAsteroid(order) && i < |order| && BurnedSoFar(s, order, i, cost)
    requires Position(s, order[i].asteroid) < |s| && AmountAt(s, order[i].asteroid) == order[i].amount
    requires Burned(order, i, cost) <= order[i].amount
    ensures BurnedSoFar(UnstakedIn(s, order[i].asteroid, Burned(order, i, cost)), order, i + 1, cost)
  {
    hide OnePerAsteroid, AmountAt, Position, Left, Burned, UnstakedIn;
    var burn := Burned(order, i, cost);
    forall j | 0 <= j < |order|
      ensures AmountAt(UnstakedIn(s, order[i].asteroid, burn), order[j].asteroid) == AmountAfter(order, i + 1, j, cost)
    {
      SameAsteroidOnlyAt(order, i, j);
      UnstakedAmount(s, order[i].asteroid, burn, order[j].asteroid);
      assert AmountAt(s, order[j].asteroid) == AmountAfter(order, i, j, cost);
    }
  }

  // ----- The managers in place -----

  class StakeManager {
    var stakes: map<Wallet, seq<StakeRecord>>
    var totalStake: map<Wallet, real>
    /** The registry's asteroid totals. */
    var asteroidStake: map<AsteroidId, real>
    var syndicateBurned: real

    ghost function Contents(): Holdings
      reads this
    {
      Holdings(stakes, totalStake, asteroidStake)
    }

    /** All asteroids are registered, without stake. */
    constructor (asteroids: set<AsteroidId>)
      ensures Inv(Contents()) && stakes == map[] && asteroidStake.Keys == asteroids && syndicateBurned == 0.0
    {
      stakes, totalStake, syndicateBurned := map[], map[], 0.0;
      asteroidStake := map a | a in asteroids :: 0.0;
      new;
      forall a | a in asteroids ensures Total(StakesAt(stakes, a)) == 0.0 {
        assert StakesAt(stakes, a) == map[];
      }
    }

    method UpdateAsteroidStake(a: AsteroidId, delta: real)
      modifies this`asteroidStake
      ensures asteroidStake == Adjusted(old(asteroidStake), a, delta)
    {
      if a in asteroidStake {
        var total := asteroidStake[a] + delta;
        asteroidStake := asteroidStake[a := if total < 0.0 then 0.0 else total];
      }
    }

    method FindIndex(records: seq<StakeRecord>, a: AsteroidId) returns (i: nat)
      ensures i == Position(records, a)
    {
      i := 0;
      while i < |records| && records[i].asteroid != a
        invariant i <= |records| && forall j :: 0 <= j < i ==> records[j].asteroid != a
      {
        i := i + 1;
      }
      PositionIs(records, a, i);
    }

    method Stake(w: Wallet, a: AsteroidId, amount: real) returns (ok: bool)
      requires Inv(Contents())
      modifies this`stakes, this`totalStake, this`asteroidStake
      ensures ok == CanStake(old(Contents()), a, amount)
      ensures ok <==> amount > 0.0 && a in old(asteroidStake)
      ensures Contents() == if ok then AfterStake(old(Contents()), w, a, amount) else old(Contents())
      ensures Inv(Contents())
    {
      hide Inv, Position, Adjusted;
      if amount <= 0.0 || a !in asteroidStake {
        return false;
      }
      StakeKeepsInv(Contents(), w, a, amount);
      var records := if w in stakes then stakes[w] else [];
      var i := FindIndex(records, a);
      if i < |records| {
        records := records[i := StakeRecord(a, records[i].amount + amount)];
      } else {
        records := records + [StakeRecord(a, amount)];
      }
      stakes := stakes[w := records];
      totalStake := totalStake[w := Held(totalStake, w) + amount];
      UpdateAsteroidStake(a, amount);
      return true;
    }

    method Unstake(w: Wallet, a: AsteroidId, amount: real) returns (ok: bool)
      requires Inv(Contents())
      modifies this`stakes, this`totalStake, this`asteroidStake
      ensures ok == CanUnstake(old(Contents()), w, a)
      ensures ok <==> w in old(stakes) && exists i :: 0 <= i < |old(stakes)[w]| && old(stakes)[w][i].asteroid == a
      ensures Contents() == AfterUnstake(old(Contents()), w, a, amount)
      ensures ok ==>
                var taken := Min(amount, AmountAt(old(stakes)[w], a));
                && Held(totalStake, w) == Held(old(totalStake), w) - taken
                && AmountAt(stakes[w], a) == AmountAt(old(stakes)[w], a) - taken
      ensures Inv(Contents())
    {
      hide Inv, Position, Adjusted;
      UnstakeKeepsInv(Contents(), w, a, amount);
      UnstakeTakes(Contents(), w, a, amount);
      if w !in stakes {
        return false;
      }
      var records := stakes[w];
      var i := FindIndex(records, a);
      if i == |records| {
        return false;
      }
      var effective := if amount > records[i].amount then records[i].amount else amount;
      var left := records[i].amount - effective;
      if left <= 0.0 {
        records := records[..i] + records[i + 1..];
      } else {
        records := records[i := StakeRecord(a, left)];
      }
      stakes := stakes[w := records];
      totalStake := totalStake[w := Held(totalStake, w) - effective];
      UpdateAsteroidStake(a, -effective);
      return true;
    }

    /** Founding a syndicate; `valid` is the outcome of the membership, name and tag checks. */
    method CreateSyndicate(w: Wallet, valid: bool) returns (created: bool)
      requires Inv(Contents())
      modifies this
      ensures Inv(Contents())
      ensures created == (valid && Held(old(totalStake), w) >= SYNDICATE_CREATION_COST)
      ensures created ==> Held(totalStake, w) == Held(old(totalStake), w) - 1000.0
      ensures !created ==> Contents() == old(Contents()) && syndicateBurned == old(syndicateBurned)
      ensures created ==>
                && Held(totalStake, w) == Held(old(totalStake), w) - SYNDICATE_CREATION_COST
                && syndicateBurned == old(syndicateBurned) + SYNDICATE_CREATION_COST
                && BurnComplete(RecordsOf(Contents(), w), LargestFirst(RecordsOf(old(Contents()), w)), SYNDICATE_CREATION_COST)
                && forall v :: v != w ==> RecordsOf(Contents(), v) == RecordsOf(old(Contents()), v)
    {
      if !valid || Held(totalStake, w) < SYNDICATE_CREATION_COST {
        return false;
      }
      BurnStakes(w);
      syndicateBurned := syndicateBurned + SYNDICATE_CREATION_COST;
      return true;
    }

    /** The burn loop over the founder's stakes, largest first. */
    method BurnStakes(w: Wallet)
      requires Inv(Contents()) && Held(totalStake, w) >= SYNDICATE_CREATION_COST
      modifies this`stakes, this`totalStake, this`asteroidStake
      ensures Inv(Contents())
      ensures Held(totalStake, w) == Held(old(totalStake), w) - SYNDICATE_CREATION_COST
      ensures BurnComplete(RecordsOf(Contents(), w), LargestFirst(RecordsOf(old(Contents()), w)), SYNDICATE_CREATION_COST)
      ensures forall v :: v != w ==> RecordsOf(Contents(), v) == RecordsOf(old(Contents()), v)
    {
      hide Inv, AmountAt, Left, Burned, OnePerAsteroid, BurnedSoFar, BurnComplete, Position, LargestFirst, AfterUnstake,
        CanUnstake, Descending, AmountAfter, SumStakes;
      var records := if w in stakes then stakes[w] else [];
      var order := LargestFirst(records);
      BurnBegins(Contents(), w, order);
      var remaining := SYNDICATE_CREATION_COST;
      var i := 0;
      while i < |order| && remaining > 0.0
        invariant i <= |order| && Inv(Contents())
        invariant remaining == Left(order, i, SYNDICATE_CREATION_COST)
        invariant BurnedSoFar(RecordsOf(Contents(), w), order, i, SYNDICATE_CREATION_COST)
        invariant Held(totalStake, w) == Held(old(totalStake), w) - (SYNDICATE_CREATION_COST - remaining)
        invariant forall v :: v != w ==> RecordsOf(Contents(), v) == RecordsOf(old(Contents()), v)
      {
        var toUnstake := Min(order[i].amount, remaining);
        BurnStep(order, i, SYNDICATE_CREATION_COST);
        BurnOne(Contents(), w, order, i, SYNDICATE_CREATION_COST);
        var _ := Unstake(w, order[i].asteroid, toUnstake);
        remaining := remaining - toUnstake;
        i := i + 1;
      }
      LeftNonNegative(order, i, SYNDICATE_CREATION_COST);
      BurnIsComplete(RecordsOf(Contents(), w), order, i, SYNDICATE_CREATION_COST);
    }
  }

  lemma LeftNonNegative(order: seq<StakeRecord>, i: nat, cost: real)
    requires i <= |order|
    ensures Left(order, i, cost) >= 0.0
  {
  }

  lemma BurnStep(order: seq<StakeRecord>, i: nat, cost: real)
    requires i < |order| && order[i].amount > 0.0
    ensures Min(order[i].amount, Left(order, i, cost)) == Burned(order, i, cost)
    ensures Left(order, i + 1, cost) == Left(order, i, cost) - Burned(order, i, cost)
  {
    LeftStep(order, i, cost);
  }

  /** The founder's records cover the cost once the total does. */
  lemma BurnBegins(h: Holdings, w: Wallet, order: seq<StakeRecord>)
    requires Inv(h) && order == LargestFirst(RecordsOf(h, w)) && Held(h.totals, w) >= SYNDICATE_CREATION_COST
    ensures OnePerAsteroid(order) && forall k :: 0 <= k < |order| ==> order[k].amount > 0.0
    ensures Left(order, 0, SYNDICATE_CREATION_COST) == SYNDICATE_CREATION_COST
    ensures Left(order, |order|, SYNDICATE_CREATION_COST) == 0.0
    ensures BurnedSoFar(RecordsOf(h, w), order, 0, SYNDICATE_CREATION_COST)
  {
    var s := RecordsOf(h, w);
    assert GoodRecords(h, s);
    hide AmountAt, Position;
    LargestFirstIs(s);
    SortSorts(s, AmountKey);
    forall k | 0 <= k < |order| ensures order[k].amount > 0.0 {
      assert order[k] in multiset(order);
      assert order[k] in multiset(s);
    }
    assert order[..|order|] == order && order[..0] == [];
  }
}
