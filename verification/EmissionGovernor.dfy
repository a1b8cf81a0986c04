/** The emission governor: the backing taper and the rolling daily cap. */
module Emission {
  import opened Prelude

  datatype Issue = Issue(t: int, amount: real)

  // ----- The backing taper -----

  function TaperFraction(configured: Option<real>): (f: real)
    ensures 0.0 < f <= 1.0
    ensures configured.None? ==> f == 0.25
    ensures configured.Some? && 0.0001 <= configured.value <= 1.0 ==> f == configured.value
  {
    Min(1.0, Max(0.0001, if configured.Some? then configured.value else 0.25))
  }

  /** The live budget when it is known and positive, otherwise the static one. */
  function Budget(dynamic: Option<real>, fixed: real): real {
    if dynamic.Some? && dynamic.value > 0.0 then dynamic.value else Max(0.0, fixed)
  }

  function BackingScale(budget: real, taper: real, outstanding: real): real
    requires taper > 0.0
  {
    if budget <= 0.0 then 1.0
    else
      var headroom := budget - outstanding;
      if headroom <= 0.0 then 0.0
      else if headroom >= budget * taper then 1.0
      else Tapered(headroom, budget * taper)
  }

  function Tapered(headroom: real, band: real): real
    requires 0.0 < headroom < band
  {
    headroom / band
  }

  function DailyScale(windowSum: real, cap: real): real {
    if cap > 0.0 && windowSum >= cap then 0.0 else 1.0
  }

  function Governed(gross: real, scale: real): real {
    Floor(gross * scale)
  }

  /**
   * What the throttle says of a budget: nothing when the daily cap is reached or the budget exhausted, everything
   * without a budget or with room for the band, and in between the headroom as a part of the band.
   */
  ghost predicate Verdict(scale: real, budget: real, taper: real, outstanding: real, open: bool) {
    && (!open ==> scale == 0.0)
    && (open && budget <= 0.0 ==> scale == 1.0)
    && (budget > 0.0 && outstanding >= budget ==> scale == 0.0)
    && (open && budget > 0.0 && outstanding < budget && budget - outstanding >= budget * taper ==> scale == 1.0)
    && (open && 0.0 < budget - outstanding < budget * taper && budget > 0.0 ==> scale * (budget * taper) == budget - outstanding)
  }

  /** A live budget that is known and positive decides alone; otherwise the static one does. */
  lemma LiveBudgetDecides(dynamic: Option<real>, fixed: real, taper: real, outstanding: real, issued: real, cap: real)
    requires taper > 0.0
    ensures var scale := Min(BackingScale(Budget(dynamic, fixed), taper, outstanding), DailyScale(issued, cap));
            Verdict(scale, if dynamic.Some? && dynamic.value > 0.0 then dynamic.value else fixed, taper, outstanding,
                    cap <= 0.0 || issued < cap)
  {
    hide BackingScale;
    BackingDecides(Budget(dynamic, fixed), taper, outstanding);
  }

  lemma BackingDecides(budget: real, taper: real, outstanding: real)
    requires taper > 0.0
    ensures Verdict(BackingScale(budget, taper, outstanding), budget, taper, outstanding, true)
    ensures 0.0 <= BackingScale(budget, taper, outstanding) <= 1.0
  {
    hide Tapered;
    if budget > 0.0 && 0.0 < budget - outstanding < budget * taper {
      TaperedBelowOne(budget - outstanding, budget * taper);
      TaperedPart(budget - outstanding, budget * taper);
    }
  }

  lemma TaperedPart(headroom: real, band: real)
    requires 0.0 < headroom < band
    ensures Tapered(headroom, band) * band == headroom
  {
  }

  lemma TaperedYield(gross: real, headroom: real, band: real)
    requires 0.0 < headroom < band && 0.0 <= gross <= band
    ensures 0.0 <= gross * Tapered(headroom, band) <= headroom
  {
    var scale := Tapered(headroom, band);
    assert scale * band == headroom;
    assert scale * (band - gross) >= 0.0;
    assert gross * scale >= 0.0;
  }

  /** A yield no larger than the taper band never issues more than the headroom. */
  lemma IssuanceFitsHeadroom(gross: real, budget: real, taper: real, outstanding: real, daily: real)
    requires budget > 0.0 && taper > 0.0 && 0.0 <= gross <= budget * taper && (daily == 0.0 || daily == 1.0)
    ensures 0.0 <= Governed(gross, Min(BackingScale(budget, taper, outstanding), daily)) <= Max(0.0, budget - outstanding)
  {
    var headroom, band := budget - outstanding, budget * taper;
    if 0.0 < headroom < band {
      TaperedYield(gross, headroom, band);
      TaperedBelowOne(headroom, band);
    }
  }

  lemma TaperedBelowOne(headroom: real, band: real)
    requires 0.0 < headroom < band
    ensures 0.0 < Tapered(headroom, band) < 1.0
  {
    var scale := Tapered(headroom, band);
    assert scale * band == headroom;
    BelowOne(scale, headroom, band);
  }

  lemma BelowOne(scale: real, headroom: real, band: real)
    requires 0.0 < headroom < band && scale * band == headroom
    ensures 0.0 < scale < 1.0
  {
    SignOfProduct(scale - 1.0, band);
    assert (scale - 1.0) * band == headroom - band;
    SignOfProduct(-scale, band);
    assert -scale * band == -headroom;
  }

  lemma SignOfProduct(a: real, k: real)
    requires k > 0.0
    ensures a < 0.0 <==> a * k < 0.0
  {
  }

  /** For whole yields the bound holds at every liability within the budget exactly when the yield fits the band. */
  lemma FitsExactlyWithinBand(gross: real, budget: real, taper: real)
    requires budget > 0.0 && 0.0 < taper <= 1.0 && gross >= 0.0 && gross == Floor(gross)
    ensures (forall outstanding :: 0.0 <= outstanding <= budget ==>
               Governed(gross, BackingScale(budget, taper, outstanding)) <= budget - outstanding)
            <==> gross <= budget * taper
  {
    var band := budget * taper;
    assert 0.0 < band <= budget by {
      assert budget * (1.0 - taper) >= 0.0;
    }
    if gross <= band {
      forall outstanding | 0.0 <= outstanding <= budget
        ensures Governed(gross, BackingScale(budget, taper, outstanding)) <= budget - outstanding
      {
        IssuanceFitsHeadroom(gross, budget, taper, outstanding, 1.0);
        ScaleAtMostOne(budget, taper, outstanding);
      }
    } else {
      FullScaleAtBand(gross, budget, taper);
    }
  }

  lemma ScaleAtMostOne(budget: real, taper: real, outstanding: real)
    requires taper > 0.0
    ensures Min(BackingScale(budget, taper, outstanding), 1.0) == BackingScale(budget, taper, outstanding)
  {
    if budget > 0.0 && 0.0 < budget - outstanding < budget * taper {
      TaperedBelowOne(budget - outstanding, budget * taper);
    }
  }

  lemma FullScaleAtBand(gross: real, budget: real, taper: real)
    requires budget > 0.0 && taper > 0.0 && gross == Floor(gross) && gross > budget * taper && budget * taper <= budget
    ensures var outstanding := budget - budget * taper;
            0.0 <= outstanding <= budget
            && Governed(gross, BackingScale(budget, taper, outstanding)) > budget - outstanding
  {
    var outstanding := budget - budget * taper;
    assert BackingScale(budget, taper, outstanding) == 1.0;
    assert gross * 1.0 == gross;
  }

  // ----- The rolling window -----

  function SumIssues(s: seq<Issue>): real {
    if s == [] then 0.0 else SumIssues(s[..|s| - 1]) + s[|s| - 1].amount
  }

  /** The issues no older than the cutoff. */
  function Recent(log: seq<Issue>, cutoff: int): seq<Issue> {
    if log == [] then []
    else Recent(log[..|log| - 1], cutoff) + (if log[|log| - 1].t >= cutoff then [log[|log| - 1]] else [])
  }

  /** What was issued in the 24 hours up to `now`. */
  function LastDay(log: seq<Issue>, now: int): real {
    SumIssues(Recent(log, now - DAY_MS))
  }

  ghost predicate Chronological(log: seq<Issue>) {
    forall i, j :: 0 <= i < j < |log| ==> log[i].t <= log[j].t
  }

  ghost predicate AllPositive(log: seq<Issue>) {
    forall i :: 0 <= i < |log| ==> log[i].amount > 0.0
  }

  lemma SumIssuesMore(s: seq<Issue>, x: Issue)
    ensures SumIssues(s + [x]) == SumIssues(s) + x.amount
  {
    assert (s + [x])[..|s|] == s;
  }

  lemma {:induction false} SumIssuesPositive(s: seq<Issue>)
    requires AllPositive(s)
    ensures SumIssues(s) >= 0.0
  {
    if s != [] {
      SumIssuesPositive(s[..|s| - 1]);
    }
  }

  lemma {:induction false} SumIssuesShift(s: seq<Issue>)
    requires s != []
    ensures SumIssues(s) == s[0].amount + SumIssues(s[1..])
  {
    if |s| == 1 {
      assert s[..0] == [] && s[1..] == [];
    } else {
      SumIssuesShift(s[..|s| - 1]);
      assert s[1..][..|s| - 2] == s[..|s| - 1][1..];
    }
  }

  /** In a chronological log the recent issues are a suffix. */
  lemma {:induction false} RecentIsSuffix(log: seq<Issue>, k: nat, cutoff: int)
    requires k <= |log| && (forall i :: 0 <= i < k ==> log[i].t < cutoff)
    requires forall i :: k <= i < |log| ==> log[i].t >= cutoff
    ensures Recent(log, cutoff) == log[k..]
  {
    if log != [] {
      var n := |log| - 1;
      if k <= n {
        RecentIsSuffix(log[..n], k, cutoff);
        assert log[k..] == log[..n][k..] + [log[n]];
      } else {
        RecentIsSuffix(log[..n], n, cutoff);
      }
    }
  }

  /** Filtering again with a later cutoff forgets the earlier one. */
  lemma {:induction false} RecentTwice(log: seq<Issue>, early: int, late: int)
    requires early <= late
    ensures Recent(Recent(log, early), late) == Recent(log, late)
  {
    if log != [] {
      var n := |log| - 1;
      RecentTwice(log[..n], early, late);
      var r := Recent(log[..n], early);
      assert (r + [log[n]])[..|r|] == r;
      assert r + [] == r;
    }
  }

  lemma {:induction false} RecentMembers(log: seq<Issue>, cutoff: int)
    ensures forall x :: x in Recent(log, cutoff) ==> x in log
  {
    if log != [] {
      var n := |log| - 1;
      RecentMembers(log[..n], cutoff);
      assert forall x :: x in log[..n] ==> x in log;
    }
  }

  lemma RecentUnfolds(log: seq<Issue>, cutoff: int)
    requires log != []
    ensures var last := log[|log| - 1]; var before := Recent(log[..|log| - 1], cutoff);
            Recent(log, cutoff) == if last.t >= cutoff then before + [last] else before
  {
  }

  lemma AppendChronological(s: seq<Issue>, x: Issue)
    requires Chronological(s) && forall y :: y in s ==> y.t <= x.t
    ensures Chronological(s + [x])
  {
  }

  lemma {:induction false} RecentKeeps(log: seq<Issue>, cutoff: int)
    requires AllPositive(log) && Chronological(log)
    ensures AllPositive(Recent(log, cutoff)) && Chronological(Recent(log, cutoff))
  {
    if log != [] {
      hide Recent;
      RecentUnfolds(log, cutoff);
      var n := |log| - 1;
      RecentKeeps(log[..n], cutoff);
      RecentMembers(log[..n], cutoff);
      forall x | x in log[..n] ensures x.t <= log[n].t {
        var i :| 0 <= i < n && log[i] == x;
      }
      hide Chronological;
      var r := Recent(log[..n], cutoff);
      AppendChronological(r, log[n]);
    }
  }

  class EmissionGovernor {
    const staticBudget: real
    const taperFraction: real
    const dailyCap: real
    var window: seq<Issue>
    var windowSum: real
    /** Everything ever issued, and the latest time the clock has shown. */
    ghost var log: seq<Issue>
    ghost var clock: int

    /** The window is the recent part of the log for some earlier cutoff, and the sum is its sum. */
    ghost predicate Valid()
      reads this
    {
      && Chronological(log) && AllPositive(log) && (forall x :: x in log ==> x.t <= clock)
      && (exists cutoff :: cutoff <= clock - DAY_MS && window == Recent(log, cutoff))
      && windowSum == SumIssues(window)
      && taperFraction > 0.0
    }

    constructor (budget: real, taper: Option<real>, dailyCap: real, now: int)
      ensures Valid() && log == [] && clock == now
      ensures staticBudget == Max(0.0, budget) && taperFraction == TaperFraction(taper) && this.dailyCap == Max(0.0, dailyCap)
    {
      staticBudget, taperFraction, this.dailyCap := Max(0.0, budget), TaperFraction(taper), Max(0.0, dailyCap);
      window, windowSum, log, clock := [], 0.0, [], now;
      new;
      assert window == Recent(log, now - DAY_MS);
    }

    /** The loop: expired issues leave the front of the window. */
    method DropExpired(cutoff: int)
      requires Chronological(window) && AllPositive(window) && windowSum == SumIssues(window)
      modifies this`window, this`windowSum
      ensures window == Recent(old(window), cutoff) && windowSum == SumIssues(window)
    {
      ghost var was := window;
      ghost var dropped := 0;
      while |window| > 0 && window[0].t < cutoff
        invariant dropped <= |was| && window == was[dropped..]
        invariant forall i :: 0 <= i < dropped ==> was[i].t < cutoff
        invariant windowSum == SumIssues(window)
        decreases |window|
      {
        SumIssuesShift(window);
        windowSum := windowSum - window[0].amount;
        window := window[1..];
        dropped := dropped + 1;
      }
      RecentIsSuffix(was, dropped, cutoff);
      if windowSum < 0.0 {
        windowSum := 0.0;
      }
      SumIssuesPositive(window);
    }

    /** After pruning, the fast sum is the sum of the whole log over the last 24 hours. */
    method Prune(now: int)
      requires Valid() && now >= clock
      modifies this`window, this`windowSum, this`clock
      ensures Valid() && clock == now
      ensures window == Recent(log, now - DAY_MS)
      ensures windowSum == LastDay(log, now)
    {
      ghost var early :| early <= clock - DAY_MS && window == Recent(log, early);
      RecentTwice(log, early, now - DAY_MS);
      RecentKeeps(log, early);
      DropExpired(now - DAY_MS);
      clock := now;
    }

    method Record(amount: real, now: int)
      requires Valid() && now >= clock
      modifies this
      ensures Valid()
      ensures log == if amount > 0.0 then old(log) + [Issue(now, amount)] else old(log)
      ensures amount > 0.0 ==> clock == now && windowSum == LastDay(log, now)
      ensures clock >= old(clock)
    {
      if amount <= 0.0 {
        return;
      }
      ghost var early :| early <= clock - DAY_MS && window == Recent(log, early);
      SumIssuesMore(window, Issue(now, amount));
      AppendChronological(log, Issue(now, amount));
      hide Recent, SumIssues, Chronological;
      window := window + [Issue(now, amount)];
      windowSum := windowSum + amount;
      log := log + [Issue(now, amount)];
      clock := now;
      assert log[..|log| - 1] == old(log);
      RecentUnfolds(log, early);
      assert window == Recent(log, early);
      Prune(now);
    }

    method CurrentScale(outstanding: real, dynamic: Option<real>, now: int) returns (scale: real)
      requires Valid() && now >= clock
      modifies this`window, this`windowSum, this`clock
      ensures Valid() && now >= clock >= old(clock)
      ensures scale == Min(BackingScale(Budget(dynamic, staticBudget), taperFraction, outstanding),
                           DailyScale(LastDay(log, now), dailyCap))
      ensures Verdict(scale, if dynamic.Some? && dynamic.value > 0.0 then dynamic.value else staticBudget, taperFraction,
                      outstanding, dailyCap <= 0.0 || LastDay(log, now) < dailyCap)
    {
      LiveBudgetDecides(dynamic, staticBudget, taperFraction, outstanding, LastDay(log, now), dailyCap);
      hide Verdict, BackingScale, Recent, SumIssues;
      var backing := BackingScale(Budget(dynamic, staticBudget), taperFraction, outstanding);
      var daily := 1.0;
      if dailyCap > 0.0 {
        Prune(now);
        daily := if windowSum >= dailyCap then 0.0 else 1.0;
      }
      scale := Min(backing, daily);
    }
  }

  // ----- The daily cap over whole logs -----

  /** Each issue was admitted while the last 24 hours were below the cap. */
  ghost predicate Admitted(log: seq<Issue>, cap: real) {
    forall i :: 0 <= i < |log| ==> LastDay(log[..i], log[i].t) < cap
  }

  lemma {:induction false} LaterIsLess(log: seq<Issue>, early: int, late: int)
    requires AllPositive(log) && early <= late
    ensures SumIssues(Recent(log, late)) <= SumIssues(Recent(log, early))
  {
    if log != [] {
      hide Recent, SumIssues;
      var n := |log| - 1;
      LaterIsLess(log[..n], early, late);
      RecentUnfolds(log, early);
      RecentUnfolds(log, late);
      SumIssuesMore(Recent(log[..n], early), log[n]);
      SumIssuesMore(Recent(log[..n], late), log[n]);
    } else {
      assert Recent(log, early) == Recent(log, late) == [];
    }
  }

  lemma NothingRecent(log: seq<Issue>, cutoff: int)
    requires log == []
    ensures SumIssues(Recent(log, cutoff)) == 0.0
  {
  }

  lemma JustIssued(log: seq<Issue>, i: nat)
    requires i < |log|
    ensures LastDay(log[..i + 1], log[i].t) == LastDay(log[..i], log[i].t) + log[i].amount
  {
    assert log[..i + 1][..i] == log[..i];
    SumIssuesMore(Recent(log[..i], log[i].t - DAY_MS), log[i]);
  }

  /** At any later moment the last 24 hours hold less than the cap plus the largest single issue. */
  lemma RollingCap(log: seq<Issue>, cap: real, largest: real, now: int)
    requires Chronological(log) && AllPositive(log) && Admitted(log, cap) && cap > 0.0
    requires forall i :: 0 <= i < |log| ==> log[i].amount <= largest && log[i].t <= now
    requires largest >= 0.0
    ensures LastDay(log, now) < cap + largest
  {
    hide Recent, SumIssues;
    if log == [] {
      NothingRecent(log, now - DAY_MS);
    } else {
      var n := |log| - 1;
      LaterIsLess(log, log[n].t - DAY_MS, now - DAY_MS);
      JustIssued(log, n);
      assert log[..n + 1] == log && LastDay(log[..n], log[n].t) < cap;
    }
  }

  // ----- Restarts -----

  /** The issues of all runs of the server, one after the other. */
  function Concat(sessions: seq<seq<Issue>>): seq<Issue> {
    if sessions == [] then [] else Concat(sessions[..|sessions| - 1]) + sessions[|sessions| - 1]
  }

  lemma {:induction false} LastDayOfTwo(a: seq<Issue>, b: seq<Issue>, now: int)
    ensures LastDay(a + b, now) == LastDay(a, now) + LastDay(b, now)
  {
    hide Recent, SumIssues;
    if b == [] {
      assert a + b == a;
      NothingRecent(b, now - DAY_MS);
    } else {
      var n := |b| - 1;
      LastDayOfTwo(a, b[..n], now);
      assert (a + b)[..|a| + n] == a + b[..n];
      RecentUnfolds(a + b, now - DAY_MS);
      RecentUnfolds(b, now - DAY_MS);
      SumIssuesMore(Recent(a + b[..n], now - DAY_MS), b[n]);
      SumIssuesMore(Recent(b[..n], now - DAY_MS), b[n]);
    }
  }

  /** The window is kept in memory: a restart forgets it, and every run of the server has the cap to itself. */
  lemma {:induction false} RollingCapOverRestarts(sessions: seq<seq<Issue>>, cap: real, largest: real, now: int)
    requires cap > 0.0 && largest >= 0.0
    requires forall k :: 0 <= k < |sessions| ==>
               && Chronological(sessions[k]) && AllPositive(sessions[k]) && Admitted(sessions[k], cap)
               && forall i :: 0 <= i < |sessions[k]| ==> sessions[k][i].amount <= largest && sessions[k][i].t <= now
    ensures LastDay(Concat(sessions), now) <= Times(cap + largest, |sessions|)
  {
    hide Recent, SumIssues, Admitted;
    if sessions == [] {
      NothingRecent([], now - DAY_MS);
    } else {
      var n := |sessions| - 1;
      RollingCapOverRestarts(sessions[..n], cap, largest, now);
      LastDayOfTwo(Concat(sessions[..n]), sessions[n], now);
      RollingCap(sessions[n], cap, largest, now);
    }
  }

  /** At every moment of the log's history the issues of the last 24 hours stay within the cap. */
  ghost predicate StaysWithin(log: seq<Issue>, cap: real) {
    forall k, now :: 0 <= k <= |log| && (k > 0 ==> log[k - 1].t <= now) ==>
      LastDay(log[..k], now) <= cap
  }

  /** Each issue fits what was left of the cap when it was made. */
  ghost predicate EachFits(log: seq<Issue>, cap: real) {
    forall i :: 0 <= i < |log| ==> log[i].amount <= cap - LastDay(log[..i], log[i].t)
  }

  /** The daily cap is a hard ceiling for exactly those logs in which every issue fits what is left of it. */
  lemma CeilingHoldsExactlyWhen(log: seq<Issue>, cap: real)
    requires AllPositive(log) && cap > 0.0
    ensures StaysWithin(log, cap) <==> EachFits(log, cap)
  {
    hide Recent, SumIssues;
    if EachFits(log, cap) {
      forall k, now | 0 <= k <= |log| && (k > 0 ==> log[k - 1].t <= now)
        ensures LastDay(log[..k], now) <= cap
      {
        if k == 0 {
          NothingRecent(log[..0], now - DAY_MS);
        } else {
          LaterIsLess(log[..k], log[k - 1].t - DAY_MS, now - DAY_MS);
          JustIssued(log, k - 1);
        }
      }
    }
    if StaysWithin(log, cap) {
      forall i | 0 <= i < |log| ensures log[i].amount <= cap - LastDay(log[..i], log[i].t) {
        assert LastDay(log[..i + 1], log[i].t) <= cap;
        JustIssued(log, i);
      }
    }
  }

  /** `n` equal issues at time 0. */
  function EqualIssues(n: nat, amount: real): (log: seq<Issue>)
    ensures |log| == n
  {
    seq(n, i => Issue(0, amount))
  }

  lemma {:induction false} EqualIssuesSum(n: nat, amount: real)
    ensures Recent(EqualIssues(n, amount), -DAY_MS) == EqualIssues(n, amount)
    ensures SumIssues(EqualIssues(n, amount)) == Times(amount, n)
  {
    if n > 0 {
      EqualIssuesSum(n - 1, amount);
      assert EqualIssues(n, amount)[..n - 1] == EqualIssues(n - 1, amount);
    }
  }

  lemma EqualIssuesAdmitted(n: nat, amount: real, last: real, cap: real)
    requires amount >= 0.0 && Times(amount, n) < cap
    ensures Admitted(EqualIssues(n, amount) + [Issue(0, last)], cap)
    ensures LastDay(EqualIssues(n, amount) + [Issue(0, last)], 0) == Times(amount, n) + last
  {
    hide Recent, SumIssues, EqualIssues;
    var log := EqualIssues(n, amount) + [Issue(0, last)];
    forall i | 0 <= i < |log| ensures LastDay(log[..i], log[i].t) < cap {
      PrefixOfEqual(n, amount, last, i);
      EqualIssuesSum(i, amount);
      TimesGrows(amount, i, n);
    }
    PrefixOfEqual(n, amount, last, n);
    EqualIssuesSum(n, amount);
    JustIssued(log, n);
    assert log[..n + 1] == log;
  }

  lemma PrefixOfEqual(n: nat, amount: real, last: real, i: nat)
    requires i <= n
    ensures var log := EqualIssues(n, amount) + [Issue(0, last)];
            log[..i] == EqualIssues(i, amount) && log[i].t == 0 && log[n] == Issue(0, last)
  {
  }

  lemma {:induction false} TimesGrows(x: real, m: nat, n: nat)
    requires x >= 0.0 && m <= n
    ensures Times(x, m) <= Times(x, n)
    decreases n
  {
    if m < n {
      TimesGrows(x, m, n - 1);
    }
  }

  /**
   * The cap plus the largest issue cannot be lowered: whatever smaller bound is claimed, some admitted log
   * of issues up to the largest exceeds it within a day.
   */
  lemma BoundIsTight(cap: real, largest: real, bound: real) returns (log: seq<Issue>)
    requires cap > 0.0 && largest > 0.0 && bound < cap + largest
    ensures Chronological(log) && AllPositive(log) && Admitted(log, cap)
    ensures forall i :: 0 <= i < |log| ==> log[i].amount <= largest && log[i].t == 0
    ensures LastDay(log, 0) > bound
  {
    hide Admitted, Recent, SumIssues;
    var first := Max(cap / 2.0, (cap + bound - largest) / 2.0);
    var n, amount := Split(first, largest);
    EqualIssuesAdmitted(n, amount, largest, cap);
    log := EqualIssues(n, amount) + [Issue(0, largest)];
  }

  /** An amount in equal parts none of which is above a limit. */
  lemma Split(total: real, limit: real) returns (n: nat, part: real)
    requires total > 0.0 && limit > 0.0
    ensures Times(part, n) == total && 0.0 < part <= limit
  {
    var q := total / limit;
    assert q * limit == total;
    PositiveQuotient(total, limit);
    n := q.Floor + 1;
    var k := n as real;
    part := total / k;
    PositiveQuotient(total, k);
    assert part * k == total;
    TimesIsProduct(part, n, k);
    SmallerPart(part, k, limit, q);
  }

  lemma PositiveQuotient(a: real, b: real)
    requires a > 0.0 && b > 0.0
    ensures a / b > 0.0
  {
  }

  lemma SmallerPart(part: real, k: real, limit: real, q: real)
    requires part * k == q * limit && 0.0 < q < k && limit > 0.0
    ensures part < limit
  {
    PositiveProduct(k - q, limit);
    assert (k - q) * limit == k * limit - q * limit;
    if part >= limit {
      ScaleMonotone(limit, part, k);
    }
  }

  /**
   * The cap is checked before issuing, so it is no hard ceiling: with whole amounts, as the orchestrator
   * issues them, every cap is overshot by all but one token of the largest issue.
   */
  lemma CapIsOvershot(cap: nat, largest: nat) returns (log: seq<Issue>)
    requires cap > 0 && largest > 0
    ensures Chronological(log) && AllPositive(log) && Admitted(log, cap as real)
    ensures forall i :: 0 <= i < |log| ==> log[i].amount <= largest as real && log[i].amount == Floor(log[i].amount)
    ensures LastDay(log, 0) == (cap - 1 + largest) as real
  {
    hide Admitted, Recent, SumIssues;
    TimesIsProduct(1.0, cap - 1, (cap - 1) as real);
    EqualIssuesAdmitted(cap - 1, 1.0, largest as real, cap as real);
    log := EqualIssues(cap - 1, 1.0) + [Issue(0, largest as real)];
  }
}
