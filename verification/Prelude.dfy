/** Vocabulary shared by every module: identifiers, optional values, `Math.floor` and sums. */
module Prelude {

  type Wallet = string
  type AsteroidId = string

  const DAY_MS := 24 * 60 * 60 * 1000

  datatype Option<+T> = None | Some(value: T)

  /** A wallet and an amount: a payout, a stake weight or a placed bet. */
  datatype Payout = Payout(wallet: Wallet, amount: real)

  // ----- Math.floor -----

  /** JavaScript's `Math.floor`, kept in `real`. */
  function Floor(x: real): (r: real)
    ensures r <= x < r + 1.0
    ensures x >= 0.0 ==> r >= 0.0
  {
    x.Floor as real
  }

  lemma WholeIsItsFloor(n: int)
    ensures Floor(n as real) == n as real
  {
  }

  lemma FloorMonotone(x: real, y: real)
    requires x <= y
    ensures x.Floor <= y.Floor
    ensures Floor(x) <= Floor(y)
  {
  }

  /** The floors of the parts never exceed the floor of the sum. */
  lemma FloorOfParts(x: real, y: real)
    ensures x.Floor + y.Floor <= (x + y).Floor
    ensures Floor(x) + Floor(y) <= Floor(x + y)
  {
    assert ((x.Floor + y.Floor) as real) <= x + y;
  }

  function Min(x: real, y: real): real {
    if x <= y then x else y
  }

  function Max(x: real, y: real): real {
    if x <= y then y else x
  }

  // ----- Even shares -----

  /** One of `n` equal shares of an amount, floored. */
  function EvenShare(amount: real, n: nat): (per: real)
    requires n > 0
    ensures amount >= 0.0 ==> per >= 0.0
  {
    Floor(amount / n as real)
  }

  /** `x` added up `n` times. */
  function Times(x: real, n: nat): real {
    if n == 0 then 0.0 else Times(x, n - 1) + x
  }

  lemma {:induction false} TimesIsProduct(x: real, n: nat, k: real)
    requires k == n as real
    ensures Times(x, n) == x * k
  {
    if n > 0 {
      TimesIsProduct(x, n - 1, k - 1.0);
      assert x * (k - 1.0) + x == x * k;
    }
  }

  /** `n` even shares stay within the amount and miss less than one token each. */
  lemma EvenSharesFit(amount: real, n: nat)
    requires n > 0 && amount >= 0.0
    ensures Times(EvenShare(amount, n), n) <= amount < Times(EvenShare(amount, n), n) + n as real
  {
    var per, k := EvenShare(amount, n), n as real;
    TimesIsProduct(per, n, k);
    QuotientShare(amount, per, k);
  }

  lemma QuotientShare(amount: real, per: real, k: real)
    requires k >= 1.0 && 0.0 <= per <= amount / k < per + 1.0
    ensures per * k <= amount
    ensures amount < per * k + k
  {
    EvenPart(amount, per, amount / k, k);
  }

  lemma EvenPart(amount: real, per: real, exact: real, k: real)
    requires 0.0 <= per <= exact < per + 1.0 && k >= 1.0 && exact * k == amount
    ensures per * k <= amount
    ensures amount < per * k + k
  {
    assert (exact - per) * k >= 0.0;
    var d := per + 1.0 - exact;
    PositiveProduct(d, k);
    assert d * k == per * k + k - amount;
    assert per * k + k - amount > 0.0;
  }

  lemma ScaleMonotone(a: real, b: real, k: real)
    requires a <= b && k >= 0.0
    ensures a * k <= b * k
  {
    assert (b - a) * k >= 0.0;
  }

  lemma PositiveProduct(a: real, b: real)
    requires a > 0.0 && b > 0.0
    ensures a * b > 0.0
  {
  }

  // ----- Sums of sequences -----

  function Sum(s: seq<real>): real {
    if s == [] then 0.0 else Sum(s[..|s| - 1]) + s[|s| - 1]
  }

  function SumAmounts(s: seq<Payout>): real {
    if s == [] then 0.0 else SumAmounts(s[..|s| - 1]) + s[|s| - 1].amount
  }

  lemma SumOfOne(s: seq<Payout>)
    requires |s| == 1
    ensures SumAmounts(s) == s[0].amount
  {
    assert s[..0] == [];
  }

  lemma SumAmountsAppend(s: seq<Payout>, p: Payout)
    ensures SumAmounts(s + [p]) == SumAmounts(s) + p.amount
  {
    assert (s + [p])[..|s|] == s;
  }

  /** What a list of payouts pays one wallet. */
  function PaidTo(payouts: seq<Payout>, w: Wallet): real {
    if payouts == [] then 0.0
    else PaidTo(payouts[..|payouts| - 1], w) + (if payouts[|payouts| - 1].wallet == w then payouts[|payouts| - 1].amount else 0.0)
  }

  lemma PaidToMore(payouts: seq<Payout>, p: Payout, w: Wallet)
    ensures PaidTo(payouts + [p], w) == PaidTo(payouts, w) + (if p.wallet == w then p.amount else 0.0)
  {
    assert (payouts + [p])[..|payouts|] == payouts;
  }

  /** No two entries are the same wallet's. */
  ghost predicate OneEach(payouts: seq<Payout>) {
    forall i, j :: 0 <= i < j < |payouts| ==> payouts[i].wallet != payouts[j].wallet
  }

  lemma {:induction false} PaidToNobody(payouts: seq<Payout>, w: Wallet)
    requires forall i :: 0 <= i < |payouts| ==> payouts[i].wallet != w
    ensures PaidTo(payouts, w) == 0.0
  {
    if payouts != [] {
      PaidToNobody(payouts[..|payouts| - 1], w);
    }
  }

  // ----- Sums of maps -----

  lemma SomeKey<K(!new), V>(m: map<K, V>) returns (k: K)
    requires m != map[]
    ensures k in m
  {
    k :| k in m;
  }

  /** The sum of a map's values, in no particular order. */
  ghost function Total<K(!new)>(m: map<K, real>): real
    decreases |m|
  {
    if m == map[] then 0.0
    else var k :| k in m; m[k] + Total(m - {k})
  }

  /** The order in which `Total` picks its keys does not matter. */
  lemma {:induction false} TotalRemove<K(!new)>(m: map<K, real>, k: K)
    requires k in m
    ensures Total(m) == m[k] + Total(m - {k})
    decreases |m|
  {
    var j :| j in m && Total(m) == m[j] + Total(m - {j});
    if j != k {
      TotalRemove(m - {j}, k);
      TotalRemove(m - {k}, j);
      assert m - {j} - {k} == m - {k} - {j};
    }
  }

  lemma TotalPut<K(!new)>(m: map<K, real>, k: K, v: real)
    ensures Total(m[k := v]) == Total(m) - (if k in m then m[k] else 0.0) + v
  {
    TotalRemove(m[k := v], k);
    assert m[k := v] - {k} == m - {k};
    if k in m {
      TotalRemove(m, k);
    } else {
      assert m - {k} == m;
    }
  }

  lemma TotalDrop<K(!new)>(m: map<K, real>, k: K)
    ensures Total(m - {k}) == Total(m) - (if k in m then m[k] else 0.0)
  {
    if k in m {
      TotalRemove(m, k);
    } else {
      assert m - {k} == m;
    }
  }

  /** Pointwise comparison carries over to the totals. */
  lemma {:induction false} TotalLe<K(!new)>(m: map<K, real>, n: map<K, real>)
    requires m.Keys == n.Keys
    requires forall k :: k in m ==> m[k] <= n[k]
    ensures Total(m) <= Total(n)
    decreases |m|
  {
    if m == map[] {
      assert n == map[];
    } else {
      var k :| k in m;
      TotalRemove(m, k);
      TotalRemove(n, k);
      TotalLe(m - {k}, n - {k});
    }
  }

  lemma {:induction false} TotalNonNegative<K(!new)>(m: map<K, real>)
    requires forall k :: k in m ==> m[k] >= 0.0
    ensures Total(m) >= 0.0
    decreases |m|
  {
    if m != map[] {
      var j :| j in m;
      TotalRemove(m, j);
      TotalNonNegative(m - {j});
    }
  }

  lemma TotalAtLeast<K(!new)>(m: map<K, real>, k: K)
    requires k in m && forall j :: j in m ==> m[j] >= 0.0
    ensures m[k] <= Total(m)
  {
    TotalRemove(m, k);
    TotalNonNegative(m - {k});
  }

  /** Entries worth nothing can be dropped. */
  lemma {:induction false} TotalIgnoresZeros<K(!new)>(m: map<K, real>, gone: set<K>)
    requires forall k :: k in m && k in gone ==> m[k] == 0.0
    ensures Total(m - gone) == Total(m)
    decreases |m|
  {
    if k :| k in m && k in gone {
      TotalDrop(m, k);
      TotalIgnoresZeros(m - {k}, gone);
      assert m - {k} - gone == m - gone;
    } else {
      assert m - gone == m;
    }
  }

  /** Totals of pointwise sums. */
  lemma {:induction false} TotalAdd<K(!new)>(m: map<K, real>, n: map<K, real>, sum: map<K, real>)
    requires m.Keys == n.Keys == sum.Keys
    requires forall k :: k in m ==> sum[k] == m[k] + n[k]
    ensures Total(sum) == Total(m) + Total(n)
    decreases |m|
  {
    if m == map[] {
      assert n == map[] && sum == map[];
    } else {
      var k :| k in m;
      TotalRemove(m, k);
      TotalRemove(n, k);
      TotalRemove(sum, k);
      TotalAdd(m - {k}, n - {k}, sum - {k});
    }
  }

  // ----- Balances of wallets and of asteroids' vaults and pots -----

  function Held(balances: map<string, real>, w: string): real {
    if w in balances then balances[w] else 0.0
  }

  /** Totals of pointwise sums, a missing entry counting as 0. */
  lemma TotalOfHeld(a: map<string, real>, b: map<string, real>, sum: map<string, real>)
    requires forall w :: Held(sum, w) == Held(a, w) + Held(b, w)
    ensures Total(sum) == Total(a) + Total(b)
  {
    hide Held, Total;
    var keys := a.Keys + b.Keys + sum.Keys;
    TotalFilled(a, keys);
    TotalFilled(b, keys);
    TotalFilled(sum, keys);
    TotalAdd(Filled(a, keys), Filled(b, keys), Filled(sum, keys));
  }

  function Filled(m: map<string, real>, keys: set<string>): map<string, real> {
    map w | w in keys :: Held(m, w)
  }

  lemma TotalFilled(m: map<string, real>, keys: set<string>)
    requires m.Keys <= keys
    ensures Total(Filled(m, keys)) == Total(m)
  {
    TotalIgnoresZeros(Filled(m, keys), keys - m.Keys);
    assert Filled(m, keys) - (keys - m.Keys) == m;
  }

  function Credit(balances: map<Wallet, real>, w: Wallet, amount: real): map<Wallet, real> {
    balances[w := Held(balances, w) + amount]
  }

  function CreditPayouts(balances: map<Wallet, real>, payouts: seq<Payout>): map<Wallet, real> {
    if payouts == [] then balances
    else
      var last := payouts[|payouts| - 1];
      Credit(CreditPayouts(balances, payouts[..|payouts| - 1]), last.wallet, last.amount)
  }

  lemma CreditTotal(balances: map<Wallet, real>, w: Wallet, amount: real)
    ensures Total(Credit(balances, w, amount)) == Total(balances) + amount
  {
    TotalPut(balances, w, Held(balances, w) + amount);
  }

  /** Each wallet's balance rises by what the payouts pay it, and nobody else's moves. */
  lemma {:induction false} CreditPayoutsHeld(balances: map<Wallet, real>, payouts: seq<Payout>, w: Wallet)
    ensures Held(CreditPayouts(balances, payouts), w) == Held(balances, w) + PaidTo(payouts, w)
  {
    if payouts != [] {
      CreditPayoutsHeld(balances, payouts[..|payouts| - 1], w);
    }
  }

  lemma {:induction false} CreditPayoutsTotal(balances: map<Wallet, real>, payouts: seq<Payout>)
    ensures Total(CreditPayouts(balances, payouts)) == Total(balances) + SumAmounts(payouts)
  {
    if payouts != [] {
      var last := payouts[|payouts| - 1];
      CreditPayoutsTotal(balances, payouts[..|payouts| - 1]);
      CreditTotal(CreditPayouts(balances, payouts[..|payouts| - 1]), last.wallet, last.amount);
    }
  }
}
