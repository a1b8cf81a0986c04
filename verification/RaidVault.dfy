/** Raid vaults: the stealable treasuries, what raids take out and what lost wagers put back. */
module RaidVaults {
  import opened Prelude

  type Balances = map<AsteroidId, real>

  function Credited(m: Balances, a: AsteroidId, amount: real): Balances {
    if amount <= 0.0 then m else m[a := Held(m, a) + amount]
  }

  /** What a debit actually removes. */
  function Taken(m: Balances, a: AsteroidId, amount: real): real {
    if Held(m, a) <= 0.0 || amount <= 0.0 then 0.0 else Min(amount, Held(m, a))
  }

  function Debited(m: Balances, a: AsteroidId, amount: real): Balances {
    if Taken(m, a, amount) == 0.0 then m else m[a := Held(m, a) - Taken(m, a, amount)]
  }

  ghost predicate Solvent(m: Balances) {
    forall a :: a in m ==> m[a] >= 0.0
  }

  lemma AddCredits(m: Balances, a: AsteroidId, amount: real)
    requires amount >= 0.0
    ensures forall b :: Held(Credited(m, a, amount), b) == Held(m, b) + (if b == a then amount else 0.0)
    ensures Total(Credited(m, a, amount)) == Total(m) + amount
    ensures Solvent(m) ==> Solvent(Credited(m, a, amount))
  {
    TotalPut(m, a, Held(m, a) + amount);
  }

  lemma DebitTakes(m: Balances, a: AsteroidId, amount: real)
    requires Solvent(m)
    ensures 0.0 <= Taken(m, a, amount) <= Held(m, a)
    ensures amount >= 0.0 ==> Taken(m, a, amount) == Min(amount, Held(m, a))
    ensures forall b :: Held(Debited(m, a, amount), b) == Held(m, b) - (if b == a then Taken(m, a, amount) else 0.0)
    ensures Total(Debited(m, a, amount)) == Total(m) - Taken(m, a, amount)
    ensures Solvent(Debited(m, a, amount))
  {
    TotalPut(m, a, Held(m, a) - Taken(m, a, amount));
  }

  class RaidVault {
    var balances: Balances

    constructor ()
      ensures balances == map[]
    {
      balances := map[];
    }

    method Add(a: AsteroidId, amount: real) returns (next: real)
      modifies this
      ensures balances == Credited(old(balances), a, amount) && next == Held(balances, a)
    {
      if amount <= 0.0 {
        return Held(balances, a);
      }
      next := Held(balances, a) + amount;
      balances := balances[a := next];
    }

    method Debit(a: AsteroidId, amount: real) returns (taken: real)
      modifies this
      ensures balances == Debited(old(balances), a, amount) && taken == Taken(old(balances), a, amount)
      ensures Solvent(old(balances)) ==> Solvent(balances)
    {
      var balance := Held(balances, a);
      if balance <= 0.0 || amount <= 0.0 {
        return 0.0;
      }
      taken := Min(amount, balance);
      balances := balances[a := balance - taken];
    }

    method GetTotal() returns (total: real)
      ensures total == Total(balances)
    {
      total := 0.0;
      var todo := balances.Keys;
      while todo != {}
        invariant todo <= balances.Keys
        invariant total == Total(balances - todo)
        decreases |todo|
      {
        var a :| a in todo;
        TotalPut(balances - todo, a, balances[a]);
        assert balances - (todo - {a}) == (balances - todo)[a := balances[a]];
        total := total + balances[a];
        todo := todo - {a};
      }
      assert balances - {} == balances;
    }

    /** A lost wager's share becomes bounty elsewhere; `others` are all asteroids but the defended one. */
    method Recirculate(defended: AsteroidId, others: seq<AsteroidId>, amount: real)
      modifies this
      ensures balances == Recirculated(old(balances), defended, others, amount)
    {
      if amount <= 0.0 {
        return;
      }
      if others == [] {
        var _ := Add(defended, amount);
        return;
      }
      var per := EvenShare(amount, |others|);
      var given := 0.0;
      ghost var shares := Shares(amount, |others|);
      for i := 0 to |others|
        invariant balances == Spread(old(balances), others[..i], shares[..i])
        invariant i < |others| ==> given == Times(per, i)
      {
        hide EvenShare, Credited;
        assert others[..i + 1][..i] == others[..i] && shares[..i + 1][..i] == shares[..i];
        var share := if i == |others| - 1 then amount - given else per;
        assert share == shares[i];
        if share > 0.0 {
          var _ := Add(others[i], share);
          given := given + share;
        } else {
          NothingCredited(balances, others[i], share);
        }
      }
      assert others[..|others|] == others && shares[..|others|] == shares;
    }
  }

  // ----- Recirculation -----

  /** Even floored shares, the last one taking the remainder. */
  function Shares(amount: real, n: nat): (shares: seq<real>)
    requires n > 0
    ensures |shares| == n
  {
    seq(n, i => if i == n - 1 then amount - Times(EvenShare(amount, n), n - 1) else EvenShare(amount, n))
  }

  function Spread(m: Balances, to: seq<AsteroidId>, shares: seq<real>): Balances
    requires |to| == |shares|
  {
    if to == [] then m
    else
      var n := |to| - 1;
      Credited(Spread(m, to[..n], shares[..n]), to[n], shares[n])
  }

  function Recirculated(m: Balances, defended: AsteroidId, others: seq<AsteroidId>, amount: real): Balances {
    if amount <= 0.0 then m
    else if others == [] then Credited(m, defended, amount)
    else Spread(m, others, Shares(amount, |others|))
  }

  lemma NothingCredited(m: Balances, a: AsteroidId, amount: real)
    requires amount <= 0.0
    ensures Credited(m, a, amount) == m
  {
  }

  lemma {:induction false} SumOfEqual(s: seq<real>, x: real)
    requires forall i :: 0 <= i < |s| ==> s[i] == x
    ensures Sum(s) == Times(x, |s|)
  {
    if s != [] {
      SumOfEqual(s[..|s| - 1], x);
    }
  }

  /** The shares are non-negative, sum exactly to the amount, and are even up to the last one's dust. */
  lemma SharesAreExact(amount: real, n: nat)
    requires n > 0 && amount >= 0.0
    ensures var shares := Shares(amount, n); var per := EvenShare(amount, n);
            && Sum(shares) == amount
            && (forall i :: 0 <= i < n ==> shares[i] >= per >= 0.0)
            && (forall i :: 0 <= i < n - 1 ==> shares[i] == per)
            && shares[n - 1] < per + n as real
  {
    hide EvenShare;
    var shares, per := Shares(amount, n), EvenShare(amount, n);
    EvenSharesFit(amount, n);
    SumOfEqual(shares[..n - 1], per);
  }

  lemma {:induction false} SpreadCredits(m: Balances, to: seq<AsteroidId>, shares: seq<real>, other: AsteroidId)
    requires |to| == |shares| && forall i :: 0 <= i < |shares| ==> shares[i] >= 0.0
    ensures Total(Spread(m, to, shares)) == Total(m) + Sum(shares)
    ensures other !in to ==> Held(Spread(m, to, shares), other) == Held(m, other)
    ensures Solvent(m) ==> Solvent(Spread(m, to, shares))
  {
    hide Credited;
    if to != [] {
      var n := |to| - 1;
      SpreadCredits(m, to[..n], shares[..n], other);
      AddCredits(Spread(m, to[..n], shares[..n]), to[n], shares[n]);
      assert other !in to ==> other != to[n] && other !in to[..n];
    }
  }

  lemma {:induction false} VaultGetsShare(m: Balances, to: seq<AsteroidId>, shares: seq<real>, i: nat)
    requires |to| == |shares| && i < |to| && forall j :: 0 <= j < |shares| ==> shares[j] >= 0.0
    requires forall j, k :: 0 <= j < k < |to| ==> to[j] != to[k]
    ensures Held(Spread(m, to, shares), to[i]) == Held(m, to[i]) + shares[i]
  {
    hide Credited;
    var n := |to| - 1;
    AddCredits(Spread(m, to[..n], shares[..n]), to[n], shares[n]);
    if i < n {
      VaultGetsShare(m, to[..n], shares[..n], i);
    } else {
      SpreadCredits(m, to[..n], shares[..n], to[n]);
    }
  }

  /** Each other vault gets the even floored share, the last one what that leaves of the amount; no further vault changes. */
  lemma EachVaultGets(m: Balances, defended: AsteroidId, others: seq<AsteroidId>, amount: real, i: nat)
    requires amount >= 0.0 && i < |others| && forall j, k :: 0 <= j < k < |others| ==> others[j] != others[k]
    ensures var m' := Recirculated(m, defended, others, amount); var n := |others|;
            && Held(m', others[i]) == Held(m, others[i])
                                      + (if i < n - 1 then Floor(amount / n as real)
                                         else amount - Times(Floor(amount / n as real), n - 1))
            && forall a :: a !in others ==> Held(m', a) == Held(m, a)
  {
    hide Spread;
    SharesAreExact(amount, |others|);
    var shares := Shares(amount, |others|);
    if amount > 0.0 {
      VaultGetsShare(m, others, shares, i);
      forall a | a !in others ensures Held(Spread(m, others, shares), a) == Held(m, a) {
        SpreadCredits(m, others, shares, a);
      }
    } else {
      NothingToShare(|others|);
    }
  }

  lemma NothingToShare(n: nat)
    requires n > 0
    ensures Floor(0.0 / n as real) == 0.0 && Times(0.0, n - 1) == 0.0
  {
    TimesIsProduct(0.0, n - 1, (n - 1) as real);
  }

  /** In-game credits equal the tokens moved, and the defended vault gains nothing unless it is alone. */
  lemma RecirculationIsExact(m: Balances, defended: AsteroidId, others: seq<AsteroidId>, amount: real)
    requires amount >= 0.0 && defended !in others
    ensures var m' := Recirculated(m, defended, others, amount);
            && Total(m') == Total(m) + amount
            && (Solvent(m) ==> Solvent(m'))
            && Held(m', defended) == Held(m, defended) + (if others == [] then amount else 0.0)
  {
    if others != [] {
      SharesAreExact(amount, |others|);
      SpreadCredits(m, others, Shares(amount, |others|), defended);
    } else {
      AddCredits(m, defended, amount);
    }
  }

  // ----- A sweep at one target -----

  /** What one resolved raid does to the vaults: the stolen amount, and the recirculated part of its wager. */
  datatype VaultMove = VaultMove(stolen: real, recirculated: real)

  function Moved(m: Balances, target: AsteroidId, others: seq<AsteroidId>, v: VaultMove): Balances {
    var m1 := if v.stolen > 0.0 then Debited(m, target, v.stolen) else m;
    if v.recirculated > 0.0 then Recirculated(m1, target, others, v.recirculated) else m1
  }

  function AfterMoves(m: Balances, target: AsteroidId, others: seq<AsteroidId>, moves: seq<VaultMove>): Balances {
    if moves == [] then m
    else Moved(AfterMoves(m, target, others, moves[..|moves| - 1]), target, others, moves[|moves| - 1])
  }

  function SumStolen(moves: seq<VaultMove>): real {
    if moves == [] then 0.0 else SumStolen(moves[..|moves| - 1]) + moves[|moves| - 1].stolen
  }

  function SumRecirculated(moves: seq<VaultMove>): real {
    if moves == [] then 0.0 else SumRecirculated(moves[..|moves| - 1]) + moves[|moves| - 1].recirculated
  }

  predicate Proper(moves: seq<VaultMove>) {
    forall i :: 0 <= i < |moves| ==> moves[i].stolen >= 0.0 && moves[i].recirculated >= 0.0
  }

  lemma MoveIsExact(m: Balances, target: AsteroidId, others: seq<AsteroidId>, v: VaultMove)
    requires Solvent(m) && target !in others
    requires 0.0 <= v.stolen <= Held(m, target) && v.recirculated >= 0.0
    ensures var m' := Moved(m, target, others, v);
            && Solvent(m')
            && Held(m', target) == Held(m, target) - v.stolen + (if others == [] then v.recirculated else 0.0)
            && Total(m') == Total(m) - v.stolen + v.recirculated
  {
    hide Debited, Recirculated;
    DebitTakes(m, target, v.stolen);
    var m1 := if v.stolen > 0.0 then Debited(m, target, v.stolen) else m;
    RecirculationIsExact(m1, target, others, v.recirculated);
  }

  lemma {:induction false} RecirculatedNonNegative(moves: seq<VaultMove>)
    requires Proper(moves)
    ensures SumRecirculated(moves) >= 0.0
  {
    if moves != [] {
      RecirculatedNonNegative(moves[..|moves| - 1]);
    }
  }

  /**
   * While the raids of one sweep steal no more in all than the vault held, no debit is clamped,
   * the vault falls by exactly what was stolen, and all vaults together change by exactly what
   * was recirculated less what was stolen. An only asteroid gets the recirculation itself.
   */
  lemma {:induction false} SweepConservesVaults(m: Balances, target: AsteroidId, others: seq<AsteroidId>,
                                                moves: seq<VaultMove>)
    requires Solvent(m) && target !in others && Proper(moves)
    requires SumStolen(moves) <= Held(m, target)
    ensures var m' := AfterMoves(m, target, others, moves);
            && Solvent(m')
            && Held(m', target) == Held(m, target) - SumStolen(moves) + (if others == [] then SumRecirculated(moves) else 0.0)
            && Total(m') == Total(m) - SumStolen(moves) + SumRecirculated(moves)
    ensures forall i :: 0 <= i < |moves| ==>
              Taken(AfterMoves(m, target, others, moves[..i]), target, moves[i].stolen) == moves[i].stolen
  {
    hide Moved, Taken, Debited, Solvent, Held, Total;
    if moves != [] {
      var n := |moves| - 1;
      var before := AfterMoves(m, target, others, moves[..n]);
      assert Proper(moves[..n]) && moves[n].stolen >= 0.0 && moves[n].recirculated >= 0.0;
      SweepConservesVaults(m, target, others, moves[..n]);
      RecirculatedNonNegative(moves[..n]);
      MoveIsExact(before, target, others, moves[n]);
      DebitTakes(before, target, moves[n].stolen);
      forall i | 0 <= i < |moves|
        ensures Taken(AfterMoves(m, target, others, moves[..i]), target, moves[i].stolen) == moves[i].stolen
      {
        assert i < n ==> moves[..n][..i] == moves[..i];
      }
    }
  }
}
