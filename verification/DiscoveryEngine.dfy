/** The discovery engine: who finds, and how the find is shared. */
module Discovery {
  import opened Prelude

  datatype Miner = Miner(wallet: Wallet, drillPower: real)

  datatype Share = Share(wallet: Wallet, percent: real)

  datatype MiningState = MiningState(asteroid: AsteroidId, baseTime: real, miners: seq<Miner>)

  datatype Found = Found(asteroid: AsteroidId, finder: Wallet, shares: seq<Share>)

  function Contributors(miners: seq<Miner>): seq<Miner> {
    if miners == [] then []
    else
      var last := miners[|miners| - 1];
      Contributors(miners[..|miners| - 1]) + (if last.drillPower > 0.0 then [last] else [])
  }

  function TotalPower(miners: seq<Miner>): real {
    if miners == [] then 0.0 else TotalPower(miners[..|miners| - 1]) + miners[|miners| - 1].drillPower
  }

  function PercentOf(power: real, total: real): real
    requires total > 0.0
  {
    power / total * 100.0
  }

  function SharesOf(contributors: seq<Miner>, total: real): (shares: seq<Share>)
    requires total > 0.0
    ensures |shares| == |contributors|
  {
    seq(|contributors|, i requires 0 <= i < |contributors| =>
      Share(contributors[i].wallet, PercentOf(contributors[i].drillPower, total)))
  }

  function SumPercent(shares: seq<Share>): real {
    if shares == [] then 0.0 else SumPercent(shares[..|shares| - 1]) + shares[|shares| - 1].percent
  }

  ghost predicate AllContribute(miners: seq<Miner>) {
    forall i :: 0 <= i < |miners| ==> miners[i].drillPower > 0.0
  }

  /** Positive percentages that add up to the whole. */
  ghost predicate FullShares(shares: seq<Share>) {
    (forall i :: 0 <= i < |shares| ==> shares[i].percent > 0.0) && SumPercent(shares) == 100.0
  }

  lemma {:induction false} ContributorsContribute(miners: seq<Miner>)
    ensures AllContribute(Contributors(miners))
    ensures forall m :: m in Contributors(miners) <==> m in miners && m.drillPower > 0.0
  {
    if miners != [] {
      var n := |miners| - 1;
      ContributorsContribute(miners[..n]);
      assert miners == miners[..n] + [miners[n]];
    }
  }

  lemma {:induction false} PowerPositive(miners: seq<Miner>)
    requires AllContribute(miners)
    ensures miners != [] ==> TotalPower(miners) > 0.0
    ensures TotalPower(miners) >= 0.0
  {
    if miners != [] {
      PowerPositive(miners[..|miners| - 1]);
    }
  }

  lemma PercentAdds(a: real, b: real, total: real)
    requires total > 0.0
    ensures PercentOf(a + b, total) == PercentOf(a, total) + PercentOf(b, total)
    ensures PercentOf(0.0, total) == 0.0 && PercentOf(total, total) == 100.0
    ensures a > 0.0 ==> PercentOf(a, total) > 0.0
  {
  }

  lemma {:induction false} SumOfShares(contributors: seq<Miner>, total: real)
    requires total > 0.0
    ensures SumPercent(SharesOf(contributors, total)) == PercentOf(TotalPower(contributors), total)
  {
    hide PercentOf;
    if contributors == [] {
      PercentAdds(0.0, 0.0, total);
    } else {
      var n := |contributors| - 1;
      SumOfShares(contributors[..n], total);
      assert SharesOf(contributors, total)[..n] == SharesOf(contributors[..n], total);
      PercentAdds(TotalPower(contributors[..n]), contributors[n].drillPower, total);
    }
  }

  /** The shares of a resolved discovery are positive and make up exactly the whole. */
  lemma SharesMakeTheWhole(contributors: seq<Miner>)
    requires AllContribute(contributors) && contributors != []
    ensures TotalPower(contributors) > 0.0
    ensures FullShares(SharesOf(contributors, TotalPower(contributors)))
  {
    hide PercentOf;
    PowerPositive(contributors);
    var total := TotalPower(contributors);
    SumOfShares(contributors, total);
    PercentAdds(total, 0.0, total);
    forall i | 0 <= i < |contributors| ensures PercentOf(contributors[i].drillPower, total) > 0.0 {
      PercentAdds(contributors[i].drillPower, 0.0, total);
    }
  }

  /** The miner's own share, in proportion to their part of the total drill power. */
  predicate ShareOfPower(s: Share, m: Miner, total: real) {
    s.wallet == m.wallet && s.percent * total == 100.0 * m.drillPower
  }

  lemma SharesFollowPower(contributors: seq<Miner>, total: real, i: nat)
    requires total > 0.0 && i < |contributors|
    ensures ShareOfPower(SharesOf(contributors, total)[i], contributors[i], total)
  {
    var part := contributors[i].drillPower / total;
    assert part * total == contributors[i].drillPower;
    assert part * 100.0 * total == 100.0 * (part * total);
  }

  lemma {:induction false} PowerGrows(miners: seq<Miner>, i: nat)
    requires AllContribute(miners) && i < |miners|
    ensures TotalPower(miners[..i]) < TotalPower(miners[..i + 1]) <= TotalPower(miners)
    decreases |miners| - i
  {
    assert miners[..i + 1][..i] == miners[..i];
    if i + 1 < |miners| {
      PowerGrows(miners, i + 1);
    } else {
      assert miners[..i + 1] == miners;
    }
  }

  /**
   * The finder is the contributor whose stretch of the total drill power the roll falls into, so a
   * uniform roll picks each contributor in proportion to its power; a roll of 0 picks the first and
   * one beyond the total the last.
   */
  method PickFinder(contributors: seq<Miner>, roll: real) returns (finder: nat)
    requires contributors != [] && AllContribute(contributors)
    ensures finder < |contributors|
    ensures roll <= TotalPower(contributors) ==> roll <= TotalPower(contributors[..finder + 1])
    ensures finder > 0 ==> TotalPower(contributors[..finder]) < roll
    ensures roll > TotalPower(contributors) ==> finder == |contributors| - 1
  {
    var left := roll;
    for i := 0 to |contributors|
      invariant left == roll - TotalPower(contributors[..i])
      invariant i > 0 ==> left > 0.0 && TotalPower(contributors[..i - 1]) < roll
    {
      assert contributors[..i + 1][..i] == contributors[..i];
      PowerGrows(contributors, i);
      left := left - contributors[i].drillPower;
      if left <= 0.0 {
        return i;
      }
    }
    assert contributors[..|contributors|] == contributors;
    assert contributors[..|contributors| - 1] < contributors;
    return |contributors| - 1;
  }

  /** Where a random number in [0, 1) falls on the total drill power. */
  function AtPower(roll: real, total: real): real {
    roll * total
  }

  /** The contributor into whose stretch of the total drill power the roll falls. */
  ghost predicate Picked(contributors: seq<Miner>, roll: real, k: nat) {
    && k < |contributors|
    && roll <= TotalPower(contributors[..k + 1]) && (k > 0 ==> TotalPower(contributors[..k]) < roll)
  }

  /** A find at the asteroid: the finder is the one picked, everyone who drills shares by power. */
  ghost predicate FoundBy(state: MiningState, roll: real, f: Found) {
    var contributors := Contributors(state.miners);
    var total := TotalPower(contributors);
    && f.asteroid == state.asteroid && FullShares(f.shares) && |f.shares| == |contributors|
    && (exists k: nat :: Picked(contributors, AtPower(roll, total), k) && f.finder == contributors[k].wallet)
    && forall i :: 0 <= i < |contributors| ==> ShareOfPower(f.shares[i], contributors[i], total)
  }

  /** `roll` is the random number in [0, 1). */
  method ResolveOne(state: MiningState, roll: real) returns (found: Option<Found>)
    requires 0.0 <= roll < 1.0
    ensures found.None? <==> Contributors(state.miners) == []
    ensures found.Some? ==>
              && found.value.asteroid == state.asteroid && FullShares(found.value.shares)
              && |found.value.shares| == |Contributors(state.miners)|
              && exists m :: m in state.miners && m.drillPower > 0.0 && m.wallet == found.value.finder
    ensures found.Some? ==> FoundBy(state, roll, found.value)
  {
    hide TotalPower, Contributors, SharesOf, FullShares, FoundBy, AtPower;
    var contributors := Contributors(state.miners);
    ContributorsContribute(state.miners);
    if contributors == [] {
      return None;
    }
    var total := TotalPower(contributors);
    SharesMakeTheWhole(contributors);
    RollWithin(roll, total);
    var finder := PickFinder(contributors, AtPower(roll, total));
    assert contributors[finder] in contributors;
    found := Some(Found(state.asteroid, contributors[finder].wallet, SharesOf(contributors, total)));
    ResolvedBy(state, roll, finder);
  }

  lemma ResolvedBy(state: MiningState, roll: real, finder: nat)
    requires var contributors := Contributors(state.miners);
             && AllContribute(contributors) && finder < |contributors| && TotalPower(contributors) > 0.0
             && Picked(contributors, AtPower(roll, TotalPower(contributors)), finder)
    ensures var contributors := Contributors(state.miners);
            FoundBy(state, roll, Found(state.asteroid, contributors[finder].wallet, SharesOf(contributors, TotalPower(contributors))))
  {
    hide PercentOf, TotalPower, Contributors, Picked, AtPower, SharesOf, ShareOfPower, FullShares;
    var contributors := Contributors(state.miners);
    var total := TotalPower(contributors);
    SharesMakeTheWhole(contributors);
    forall i | 0 <= i < |contributors| ensures ShareOfPower(SharesOf(contributors, total)[i], contributors[i], total) {
      SharesFollowPower(contributors, total, i);
    }
  }

  lemma RollWithin(roll: real, total: real)
    requires 0.0 <= roll < 1.0 && total > 0.0
    ensures AtPower(roll, total) <= total
  {
    assert (1.0 - roll) * total >= 0.0;
  }

  /** Expected finds: whole ones are certain, the fraction is rolled, and the tick is capped. */
  function FindCount(expected: real, roll: real, maxPerTick: nat): (count: int)
    ensures count <= maxPerTick
    ensures expected >= 0.0 ==> count >= 0 && (count as real) < expected + 1.0
    ensures expected >= maxPerTick as real ==> count == maxPerTick
    ensures expected < maxPerTick as real && 0.0 <= roll ==>
              count == expected.Floor + (if roll < expected - Floor(expected) then 1 else 0)
  {
    var sure := expected.Floor;
    var count := if 0.0 < expected - sure as real && roll < expected - sure as real then sure + 1 else sure;
    if count < maxPerTick then count else maxPerTick
  }

  function Expected(state: MiningState, deltaMs: real, reference: real): real
    requires state.baseTime > 0.0 && reference > 0.0
  {
    Paced(Work(TotalPower(Contributors(state.miners)), deltaMs), Pace(state.baseTime, reference))
  }

  function Work(power: real, time: real): real {
    power * time
  }

  function Pace(baseTime: real, reference: real): (pace: real)
    requires baseTime > 0.0 && reference > 0.0
    ensures pace > 0.0
  {
    PositiveProduct(baseTime, reference);
    baseTime * reference
  }

  function Paced(work: real, pace: real): real
    requires pace > 0.0
  {
    work / pace
  }

  /** Finds come in proportion to drill power and time, slower by the asteroid's base time and the reference power. */
  lemma ExpectedIsProportional(state: MiningState, deltaMs: real, reference: real)
    requires state.baseTime > 0.0 && reference > 0.0
    ensures Expected(state, deltaMs, reference) * Pace(state.baseTime, reference)
            == Work(TotalPower(Contributors(state.miners)), deltaMs)
  {
    hide Paced, TotalPower, Contributors, Work, Pace;
    PacedTimes(Work(TotalPower(Contributors(state.miners)), deltaMs), Pace(state.baseTime, reference));
  }

  lemma PacedTimes(work: real, pace: real)
    requires pace > 0.0
    ensures Paced(work, pace) * pace == work
  {
  }

  /** How many finds a tick resolves at one asteroid. */
  function FindsAt(state: MiningState, deltaMs: real, reference: real, roll: real, maxPerTick: nat): nat
    requires reference > 0.0
  {
    if TotalPower(Contributors(state.miners)) > 0.0 && state.baseTime > 0.0
    then var count := FindCount(Expected(state, deltaMs, reference), roll, maxPerTick); if count > 0 then count else 0
    else 0
  }

  /** How many it resolves at the first `n` asteroids. */
  function FindsBefore(states: seq<MiningState>, n: nat, deltaMs: real, reference: real, rolls: int -> real, maxPerTick: nat): nat
    requires n <= |states| && reference > 0.0
  {
    if n == 0 then 0
    else FindsBefore(states, n - 1, deltaMs, reference, rolls, maxPerTick)
         + FindsAt(states[n - 1], deltaMs, reference, rolls(n - 1), maxPerTick)
  }

  /** From position `from` on, `count` finds at the asteroid, each by its own pick. */
  ghost predicate FoundAt(resolved: seq<Found>, from: nat, count: nat, state: MiningState, picks: (int, int) -> real, i: int) {
    from + count <= |resolved| && forall j :: 0 <= j < count ==> FoundBy(state, picks(i, j), resolved[from + j])
  }

  /** The finds at the first `n` asteroids, one asteroid after the other. */
  ghost predicate FoundInTurn(resolved: seq<Found>, states: seq<MiningState>, n: nat, deltaMs: real, reference: real,
                              rolls: int -> real, maxPerTick: nat, picks: (int, int) -> real)
    requires n <= |states| && reference > 0.0
  {
    && |resolved| == FindsBefore(states, n, deltaMs, reference, rolls, maxPerTick)
    && forall i :: 0 <= i < n ==>
         FoundAt(resolved, FindsBefore(states, i, deltaMs, reference, rolls, maxPerTick),
                 FindsAt(states[i], deltaMs, reference, rolls(i), maxPerTick), states[i], picks, i)
  }

  lemma FoundAtMore(resolved: seq<Found>, more: seq<Found>, from: nat, count: nat, state: MiningState,
                    picks: (int, int) -> real, i: int)
    requires FoundAt(resolved, from, count, state, picks, i)
    ensures FoundAt(resolved + more, from, count, state, picks, i)
  {
    hide FoundBy;
  }

  lemma FoundAtEnd(resolved: seq<Found>, more: seq<Found>, state: MiningState, picks: (int, int) -> real, i: int)
    requires FoundAt(more, 0, |more|, state, picks, i)
    ensures FoundAt(resolved + more, |resolved|, |more|, state, picks, i)
  {
    hide FoundBy;
  }

  lemma FoundInTurnMore(resolved: seq<Found>, more: seq<Found>, states: seq<MiningState>, n: nat, deltaMs: real,
                        reference: real, rolls: int -> real, maxPerTick: nat, picks: (int, int) -> real)
    requires n < |states| && reference > 0.0 && FoundInTurn(resolved, states, n, deltaMs, reference, rolls, maxPerTick, picks)
    requires |more| == FindsAt(states[n], deltaMs, reference, rolls(n), maxPerTick)
    requires FoundAt(more, 0, |more|, states[n], picks, n)
    ensures FoundInTurn(resolved + more, states, n + 1, deltaMs, reference, rolls, maxPerTick, picks)
  {
    hide FoundAt, FindsAt;
    forall i | 0 <= i < n + 1
      ensures FoundAt(resolved + more, FindsBefore(states, i, deltaMs, reference, rolls, maxPerTick),
                      FindsAt(states[i], deltaMs, reference, rolls(i), maxPerTick), states[i], picks, i)
    {
      if i < n {
        FoundAtMore(resolved, more, FindsBefore(states, i, deltaMs, reference, rolls, maxPerTick),
                    FindsAt(states[i], deltaMs, reference, rolls(i), maxPerTick), states[i], picks, i);
      } else {
        FoundAtEnd(resolved, more, states[n], picks, n);
      }
    }
  }

  lemma SomeoneDrills(miners: seq<Miner>)
    requires TotalPower(Contributors(miners)) > 0.0
    ensures Contributors(miners) != []
  {
  }

  /** One tick over all asteroids; `rolls` and `picks` are the random numbers it draws. */
  method Tick(states: seq<MiningState>, deltaMs: real, reference: real, maxPerTick: nat,
              rolls: int -> real, picks: (int, int) -> real) returns (resolved: seq<Found>)
    requires reference > 0.0 && forall i, j :: 0.0 <= picks(i, j) < 1.0
    ensures deltaMs <= 0.0 ==> resolved == []
    ensures |resolved| <= maxPerTick * |states|
    ensures forall k :: 0 <= k < |resolved| ==> FullShares(resolved[k].shares)
    ensures deltaMs > 0.0 ==> FoundInTurn(resolved, states, |states|, deltaMs, reference, rolls, maxPerTick, picks)
  {
    hide FullShares, FindCount, FoundBy, FindsAt, FoundAt, FoundInTurn;
    resolved := [];
    if deltaMs <= 0.0 {
      return;
    }
    NothingFound(states, deltaMs, reference, rolls, maxPerTick, picks);
    for i := 0 to |states|
      invariant |resolved| <= maxPerTick * i
      invariant FoundInTurn(resolved, states, i, deltaMs, reference, rolls, maxPerTick, picks)
      invariant forall k :: 0 <= k < |resolved| ==> FullShares(resolved[k].shares)
    {
      var found := FindHere(states[i], deltaMs, reference, maxPerTick, rolls(i), picks, i);
      FoundInTurnMore(resolved, found, states, i, deltaMs, reference, rolls, maxPerTick, picks);
      resolved := resolved + found;
      assert maxPerTick * (i + 1) == maxPerTick * i + maxPerTick;
    }
  }

  lemma NothingFound(states: seq<MiningState>, deltaMs: real, reference: real, rolls: int -> real, maxPerTick: nat,
                     picks: (int, int) -> real)
    requires reference > 0.0
    ensures FoundInTurn([], states, 0, deltaMs, reference, rolls, maxPerTick, picks)
  {
  }

  /** The inner loop: the finds of one tick at one asteroid. */
  method FindHere(state: MiningState, deltaMs: real, reference: real, maxPerTick: nat, roll: real,
                  picks: (int, int) -> real, i: int) returns (found: seq<Found>)
    requires reference > 0.0 && forall j :: 0.0 <= picks(i, j) < 1.0
    ensures |found| == FindsAt(state, deltaMs, reference, roll, maxPerTick) <= maxPerTick
    ensures FoundAt(found, 0, |found|, state, picks, i)
    ensures forall k :: 0 <= k < |found| ==> FullShares(found[k].shares)
  {
    hide FullShares, FoundBy, TotalPower, Contributors, Expected;
    found := [];
    if TotalPower(Contributors(state.miners)) > 0.0 && state.baseTime > 0.0 {
      SomeoneDrills(state.miners);
      var count := FindCount(Expected(state, deltaMs, reference), roll, maxPerTick);
      for j := 0 to if count > 0 then count else 0
        invariant |found| == j && FoundAt(found, 0, j, state, picks, i)
        invariant forall k :: 0 <= k < |found| ==> FullShares(found[k].shares)
      {
        var one := ResolveOne(state, picks(i, j));
        found := found + [one.value];
      }
    }
  }
}
