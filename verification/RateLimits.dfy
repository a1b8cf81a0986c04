/** Rate limiting: the fixed action windows of the anti-cheat, and the gateway's sliding windows. */
module RateLimits {
  import opened Prelude

  // ----- Fixed windows, one wallet -----

  datatype Limits = Limits(windowMs: int, maxActions: nat, initialBackoff: real, multiplier: real, maxBackoff: real)

  /** `backoffUntil` of 0 is the same as none. */
  datatype Entry = Entry(count: nat, windowStart: int, failed: nat, backoffUntil: Option<real>)

  datatype Verdict = Allowed | InBackoff(retryAfter: real) | Limited(retryAfterMs: int)

  function Fresh(now: int): Entry {
    Entry(0, now, 0, None)
  }

  function EntryOr(e: Option<Entry>, now: int): Entry {
    if e.Some? then e.value else Fresh(now)
  }

  predicate BackingOff(e: Entry, now: int) {
    e.backoffUntil.Some? && e.backoffUntil.value != 0.0 && now as real < e.backoffUntil.value
  }

  /** The window an action at `now` falls into. */
  function Rolled(e: Entry, now: int, l: Limits): Entry {
    if now - e.windowStart >= l.windowMs then e.(count := 0, windowStart := now) else e
  }

  function Judge(e: Entry, now: int, l: Limits): Verdict {
    if BackingOff(e, now) then InBackoff(e.backoffUntil.value - now as real)
    else
      var r := Rolled(e, now, l);
      if r.count >= l.maxActions then Limited(l.windowMs - (now - r.windowStart)) else Allowed
  }

  function Checked(e: Entry, now: int, l: Limits): Entry {
    match Judge(e, now, l)
    case InBackoff(_) => e
    case Limited(_) => Rolled(e, now, l)
    case Allowed => var r := Rolled(e, now, l); r.(count := r.count + 1)
  }

  function Power(base: real, n: nat): real {
    if n == 0 then 1.0 else base * Power(base, n - 1)
  }

  function Uncapped(l: Limits, failed: nat): real
    requires failed > 0
  {
    l.initialBackoff * Power(l.multiplier, failed - 1)
  }

  function Backoff(l: Limits, failed: nat): real
    requires failed > 0
  {
    Min(Uncapped(l, failed), l.maxBackoff)
  }

  function Failed(e: Entry, now: int, l: Limits): Entry {
    e.(failed := e.failed + 1, backoffUntil := Some(now as real + Backoff(l, e.failed + 1)))
  }

  predicate Expired(e: Entry, now: int) {
    e.windowStart < now - DAY_MS
  }

  /** A refused wallet that waits exactly as told is let in again, and not a moment earlier. */
  lemma RetryAfterIsExact(e: Entry, now: int, later: int, l: Limits)
    requires l.maxActions > 0 && l.windowMs > 0 && now <= later && e.windowStart <= now && Judge(e, now, l).Limited?
    ensures Judge(Checked(e, now, l), later, l).Allowed? <==> later >= now + Judge(e, now, l).retryAfterMs
  {
  }

  /** Until the announced time has passed, every further attempt is still in backoff. */
  lemma BackoffHolds(e: Entry, now: int, later: int, l: Limits)
    requires Judge(e, now, l).InBackoff? && now <= later
    ensures Judge(Checked(e, now, l), later, l).InBackoff? <==> later as real < now as real + Judge(e, now, l).retryAfter
  {
  }

  // ----- Traces of one wallet -----

  datatype Event = Check | Fail | Succeed | Cleanup

  /** An admitted action, with the start of the window it was counted in. */
  datatype Admission = Admission(t: int, window: int)

  /** `log` are the admissions so far, `clock` the latest time seen. */
  datatype Trace = Trace(entry: Option<Entry>, log: seq<Admission>, clock: int)

  function Step(s: Trace, e: Event, now: int, l: Limits): Trace {
    match e
    case Check =>
      var entry := EntryOr(s.entry, now);
      var next := Checked(entry, now, l);
      Trace(Some(next), if Judge(entry, now, l).Allowed? then s.log + [Admission(now, next.windowStart)] else s.log, now)
    case Fail => Trace(Some(Failed(EntryOr(s.entry, now), now, l)), s.log, now)
    case Succeed =>
      s.(entry := if s.entry.Some? then Some(s.entry.value.(failed := 0, backoffUntil := None)) else None, clock := now)
    case Cleanup => s.(entry := if s.entry.Some? && Expired(s.entry.value, now) then None else s.entry, clock := now)
  }

  /** Events with their times. */
  datatype Timed = Timed(event: Event, now: int)

  function Run(events: seq<Timed>, start: int, l: Limits): Trace {
    if events == [] then Trace(None, [], start)
    else
      var last := events[|events| - 1];
      Step(Run(events[..|events| - 1], start, l), last.event, last.now, l)
  }

  ghost predicate Clocked(events: seq<Timed>, start: int) {
    && (forall i :: 0 <= i < |events| ==> start <= events[i].now)
    && forall i, j :: 0 <= i < j < |events| ==> events[i].now <= events[j].now
  }

  function CountIn(log: seq<Admission>, from: int, to: int): nat {
    if log == [] then 0
    else CountIn(log[..|log| - 1], from, to) + (if from <= log[|log| - 1].t < to then 1 else 0)
  }

  function CountOf(log: seq<Admission>, window: int): nat {
    if log == [] then 0 else CountOf(log[..|log| - 1], window) + (if log[|log| - 1].window == window then 1 else 0)
  }

  /** Each admission lies in its window, windows come in order, and different ones start a window apart. */
  ghost predicate Windowed(log: seq<Admission>, w: int) {
    && (forall i :: 0 <= i < |log| ==> log[i].window <= log[i].t < log[i].window + w)
    && (forall i, j :: 0 <= i < j < |log| ==> log[i].window == log[j].window || log[i].window + w <= log[j].window)
    && (forall i, j :: 0 <= i < j < |log| ==> log[i].t <= log[j].t)
  }

  ghost predicate WithinMax(log: seq<Admission>, max: nat) {
    forall window :: CountOf(log, window) <= max
  }

  /** Nothing was admitted later than `now`, nor in a window starting less than `w` before `start` except at `start`. */
  ghost predicate Precedes(log: seq<Admission>, start: int, w: int, now: int) {
    forall i :: 0 <= i < |log| ==> log[i].t <= now && (log[i].window == start || log[i].window + w <= start)
  }

  /** With no entry, any window that may be opened from now on is far enough from the last one. */
  ghost predicate EntryFits(s: Trace, l: Limits) {
    if s.entry.Some? then
      && s.entry.value.windowStart <= s.clock && s.entry.value.count == CountOf(s.log, s.entry.value.windowStart)
      && Precedes(s.log, s.entry.value.windowStart, l.windowMs, s.clock)
    else forall i :: 0 <= i < |s.log| ==> s.log[i].t <= s.clock && s.log[i].window + l.windowMs <= s.clock
  }

  ghost predicate Inv(s: Trace, l: Limits) {
    Windowed(s.log, l.windowMs) && WithinMax(s.log, l.maxActions) && EntryFits(s, l)
  }

  lemma CountOfMore(log: seq<Admission>, a: Admission, window: int)
    ensures CountOf(log + [a], window) == CountOf(log, window) + (if a.window == window then 1 else 0)
  {
    assert (log + [a])[..|log|] == log;
  }

  lemma {:induction false} NoneInWindow(log: seq<Admission>, window: int)
    requires forall i :: 0 <= i < |log| ==> log[i].window != window
    ensures CountOf(log, window) == 0
  {
    if log != [] {
      NoneInWindow(log[..|log| - 1], window);
    }
  }

  /** The entry an action at `now` works on fits the log. */
  lemma EntryForNow(s: Trace, now: int, l: Limits)
    requires Inv(s, l) && l.windowMs > 0 && now >= s.clock
    ensures EntryFits(Trace(Some(EntryOr(s.entry, now)), s.log, now), l)
  {
    hide CountOf, Windowed, WithinMax;
    if s.entry.None? {
      NoneInWindow(s.log, now);
    }
  }

  lemma RolledFits(s: Trace, now: int, l: Limits)
    requires s.entry.Some? && EntryFits(s, l) && l.windowMs > 0 && now == s.clock
    ensures EntryFits(s.(entry := Some(Rolled(s.entry.value, now, l))), l)
    ensures now < Rolled(s.entry.value, now, l).windowStart + l.windowMs
  {
    hide CountOf;
    if now - s.entry.value.windowStart >= l.windowMs {
      NoneInWindow(s.log, now);
    }
  }

  lemma AdmitKeepsInv(s: Trace, l: Limits)
    requires Inv(s, l) && s.entry.Some? && s.entry.value.count < l.maxActions
    requires s.clock < s.entry.value.windowStart + l.windowMs
    ensures var e := s.entry.value;
            Inv(s.(entry := Some(e.(count := e.count + 1)), log := s.log + [Admission(s.clock, e.windowStart)]), l)
  {
    hide CountOf;
    var e, a := s.entry.value, Admission(s.clock, s.entry.value.windowStart);
    forall window ensures CountOf(s.log + [a], window) <= l.maxActions {
      CountOfMore(s.log, a, window);
    }
    CountOfMore(s.log, a, e.windowStart);
  }

  lemma StepKeepsInv(s: Trace, e: Event, now: int, l: Limits)
    requires Inv(s, l) && 0 < l.windowMs <= DAY_MS + 1 && now >= s.clock
    ensures Inv(Step(s, e, now, l), l)
  {
    hide CountOf, Windowed, WithinMax, Backoff;
    if e.Check? {
      EntryForNow(s, now, l);
      var s1 := Trace(Some(EntryOr(s.entry, now)), s.log, now);
      RolledFits(s1, now, l);
      var s2 := s1.(entry := Some(Rolled(s1.entry.value, now, l)));
      if Judge(s1.entry.value, now, l).Allowed? {
        AdmitKeepsInv(s2, l);
      }
    } else if e.Fail? {
      EntryForNow(s, now, l);
    }
  }

  lemma {:induction false} RunKeepsInv(events: seq<Timed>, start: int, l: Limits)
    requires 0 < l.windowMs <= DAY_MS + 1 && Clocked(events, start)
    ensures Inv(Run(events, start, l), l)
    ensures Run(events, start, l).clock == if events == [] then start else events[|events| - 1].now
  {
    if events != [] {
      hide Inv, Step;
      RunKeepsInv(events[..|events| - 1], start, l);
      StepClock(Run(events[..|events| - 1], start, l), events[|events| - 1], l);
      StepKeepsInv(Run(events[..|events| - 1], start, l), events[|events| - 1].event, events[|events| - 1].now, l);
    }
  }

  lemma StepClock(s: Trace, e: Timed, l: Limits)
    ensures Step(s, e.event, e.now, l).clock == e.now
  {
    hide Checked, Failed, Judge;
  }

  // ----- At most twice the limit -----

  /** The admissions in an interval belong to one of two windows. */
  lemma {:induction false} CountInTwo(log: seq<Admission>, from: int, to: int, first: int, second: int)
    requires forall i :: 0 <= i < |log| && from <= log[i].t < to ==> log[i].window == first || log[i].window == second
    ensures CountIn(log, from, to) <= CountOf(log, first) + CountOf(log, second)
  {
    if log != [] {
      CountInTwo(log[..|log| - 1], from, to, first, second);
    }
  }

  lemma TwoWindows(log: seq<Admission>, from: int, w: int) returns (first: int, second: int)
    requires Windowed(log, w) && w > 0
    ensures forall i :: 0 <= i < |log| && from <= log[i].t < from + w ==> log[i].window == first || log[i].window == second
  {
    first, second := 0, 0;
    if i :| 0 <= i < |log| && from <= log[i].t < from + w {
      var a, b := FirstIn(log, from, from + w, i), LastIn(log, from, from + w, i);
      first, second := log[a].window, log[b].window;
      forall k | 0 <= k < |log| && from <= log[k].t < from + w ensures log[k].window == first || log[k].window == second {
        assert a <= k <= b;
      }
    }
  }

  /** The first admission in the interval, given that there is one. */
  ghost function FirstIn(log: seq<Admission>, from: int, to: int, i: nat): (a: nat)
    requires i < |log| && from <= log[i].t < to
    ensures a <= i && from <= log[a].t < to
    ensures forall k :: 0 <= k < a ==> !(from <= log[k].t < to)
  {
    if k :| 0 <= k < i && from <= log[k].t < to then FirstIn(log, from, to, k) else i
  }

  ghost function LastIn(log: seq<Admission>, from: int, to: int, i: nat): (b: nat)
    requires i < |log| && from <= log[i].t < to
    ensures i <= b < |log| && from <= log[b].t < to
    ensures forall k :: b < k < |log| ==> !(from <= log[k].t < to)
    decreases |log| - i
  {
    if k :| i < k < |log| && from <= log[k].t < to then LastIn(log, from, to, k) else i
  }

  /**
   * Whatever a wallet does, with failures, successes and cleanups in between, any interval of one
   * window length sees at most twice the limit.
   */
  lemma AtMostTwiceTheLimit(events: seq<Timed>, start: int, l: Limits, from: int)
    requires 0 < l.windowMs <= DAY_MS + 1 && Clocked(events, start)
    ensures Peak(events, start, l, from) <= 2 * l.maxActions
  {
    RunKeepsInv(events, start, l);
    hide Run, Windowed;
    var log := Run(events, start, l).log;
    var first, second := TwoWindows(log, from, l.windowMs);
    CountInTwo(log, from, from + l.windowMs, first, second);
  }

  lemma RunMore(events: seq<Timed>, e: Timed, start: int, l: Limits)
    ensures Run(events + [e], start, l) == Step(Run(events, start, l), e.event, e.now, l)
  {
    assert (events + [e])[..|events|] == events;
  }

  lemma CountMore(log: seq<Admission>, a: Admission, from: int, to: int)
    ensures CountIn(log + [a], from, to) == CountIn(log, from, to) + (if from <= a.t < to then 1 else 0)
  {
    assert (log + [a])[..|log|] == log;
  }

  function Repeated(a: Admission, n: nat): (log: seq<Admission>)
    ensures |log| == n
  {
    seq(n, i => a)
  }

  lemma {:induction false} CountRepeated(log: seq<Admission>, a: Admission, n: nat, from: int, to: int)
    requires from <= a.t < to
    ensures CountIn(log + Repeated(a, n), from, to) == CountIn(log, from, to) + n
  {
    if n == 0 {
      assert log + Repeated(a, n) == log;
    } else {
      CountRepeated(log, a, n - 1, from, to);
      assert log + Repeated(a, n) == log + Repeated(a, n - 1) + [a];
      CountMore(log + Repeated(a, n - 1), a, from, to);
    }
  }

  lemma CheckAdmits(s: Trace, t: int, l: Limits)
    requires s.entry.Some? && s.entry.value.backoffUntil.None? && Rolled(s.entry.value, t, l).count < l.maxActions
    ensures var e := Rolled(s.entry.value, t, l);
            Step(s, Check, t, l) == Trace(Some(e.(count := e.count + 1)), s.log + [Admission(t, e.windowStart)], t)
  {
  }

  lemma ClockedMore(events: seq<Timed>, e: Timed, start: int)
    requires Clocked(events, start) && start <= e.now && (events != [] ==> events[|events| - 1].now <= e.now)
    ensures Clocked(events + [e], start)
  {
  }

  /** `n` checks at one moment, all within what the window in force then has left. */
  lemma FillWindow(events: seq<Timed>, start: int, l: Limits, e: Entry, t: int, n: nat) returns (longer: seq<Timed>)
    requires var s := Run(events, start, l);
             && s.entry.Some? && s.entry.value.backoffUntil.None? && e == Rolled(s.entry.value, t, l)
             && e.count + n <= l.maxActions && n > 0
    requires l.windowMs > 0 && start <= t && Clocked(events, start) && (events != [] ==> events[|events| - 1].now <= t)
    ensures Clocked(longer, start) && longer != [] && longer[|longer| - 1].now == t
    ensures Run(longer, start, l)
            == Trace(Some(e.(count := e.count + n)), Run(events, start, l).log + Repeated(Admission(t, e.windowStart), n), t)
    decreases n
  {
    hide Run, Clocked, Step;
    var s := Run(events, start, l);
    var once := events + [Timed(Check, t)];
    RunMore(events, Timed(Check, t), start, l);
    CheckAdmits(s, t, l);
    ClockedMore(events, Timed(Check, t), start);
    var a := Admission(t, e.windowStart);
    if n == 1 {
      longer := once;
      assert s.log + Repeated(a, 1) == s.log + [a];
    } else {
      longer := FillWindow(once, start, l, e.(count := e.count + 1), t, n - 1);
      assert s.log + [a] + Repeated(a, n - 1) == s.log + Repeated(a, n);
    }
  }

  /** A failure opens a window without an admission, and a success clears its backoff. */
  lemma EmptyWindow(l: Limits) returns (events: seq<Timed>)
    ensures Clocked(events, 0) && events != [] && events[|events| - 1].now == 0
    ensures Run(events, 0, l) == Trace(Some(Entry(0, 0, 0, None)), [], 0)
  {
    RunNothing(0, l);
    RunMore([], Timed(Fail, 0), 0, l);
    RunMore([] + [Timed(Fail, 0)], Timed(Succeed, 0), 0, l);
    events := [] + [Timed(Fail, 0)] + [Timed(Succeed, 0)];
  }

  /** The bound is reached, with every limit and every window of at least 2 ms: one batch ends a window, the next begins one. */
  lemma TwiceIsReached(l: Limits) returns (events: seq<Timed>)
    requires l.windowMs > 1 && l.maxActions > 0
    ensures Clocked(events, 0) && Peak(events, 0, l, l.windowMs - 1) == 2 * l.maxActions
  {
    hide Run, Clocked, CountIn, Repeated;
    var w, n := l.windowMs, l.maxActions;
    events := EmptyWindow(l);
    events := FillWindow(events, 0, l, Entry(0, 0, 0, None), w - 1, n);
    var first := [] + Repeated(Admission(w - 1, 0), n);
    events := FillWindow(events, 0, l, Entry(0, w, 0, None), w, n);
    CountRepeated([], Admission(w - 1, 0), n, w - 1, w - 1 + w);
    CountRepeated(first, Admission(w, w), n, w - 1, w - 1 + w);
    NothingCounted(w - 1, w - 1 + w);
  }

  lemma NothingCounted(from: int, to: int)
    ensures CountIn([], from, to) == 0
  {
  }

  /** Step by step: each check opens a new window because cleanup has dropped the last one. */
  lemma LeakSteps(w: int)
    requires w > DAY_MS + 1
    ensures var l, day := Limits(w, 1, 1.0, 2.0, 1.0), DAY_MS;
            var s1 := Step(Step(Trace(None, [], 0), Fail, 0, l), Succeed, 0, l);
            var s2 := Step(Step(s1, Check, day + 1, l), Cleanup, day + 1, l);
            var s3 := Step(Step(s2, Check, day + 1, l), Cleanup, 2 * day + 2, l);
            Step(s3, Check, 2 * day + 2, l).log
            == [] + [Admission(day + 1, 0)] + [Admission(day + 1, day + 1)] + [Admission(2 * day + 2, 2 * day + 2)]
  {
    var l, day := Limits(w, 1, 1.0, 2.0, 1.0), DAY_MS;
    var a0, a1 := Admission(day + 1, 0), Admission(day + 1, day + 1);
    var s1 := Step(Step(Trace(None, [], 0), Fail, 0, l), Succeed, 0, l);
    assert s1 == Trace(Some(Entry(0, 0, 0, None)), [], 0);
    var s2 := Step(Step(s1, Check, day + 1, l), Cleanup, day + 1, l);
    assert s2 == Trace(None, [] + [a0], day + 1);
    var s3 := Step(Step(s2, Check, day + 1, l), Cleanup, 2 * day + 2, l);
    assert s3 == Trace(None, [] + [a0] + [a1], 2 * day + 2);
  }

  /** Cleanup forgets a window after a day: a longer window admits a third batch. */
  lemma LongWindowsLeak(w: int) returns (events: seq<Timed>)
    requires w > DAY_MS + 1
    ensures Clocked(events, 0) && Peak(events, 0, Limits(w, 1, 1.0, 2.0, 1.0), DAY_MS + 1) == 3
  {
    hide Step, Run, CountIn;
    var l, day := Limits(w, 1, 1.0, 2.0, 1.0), DAY_MS;
    var e0, e1, e2 := [Timed(Fail, 0)], [Timed(Succeed, 0)], [Timed(Check, day + 1)];
    var e3, e4, e5 := [Timed(Cleanup, day + 1)], [Timed(Cleanup, 2 * day + 2)], [Timed(Check, 2 * day + 2)];
    RunNothing(0, l);
    RunMore([], e0[0], 0, l);
    assert [] + e0 == e0;
    RunMore(e0, e1[0], 0, l);
    RunMore(e0 + e1, e2[0], 0, l);
    RunMore(e0 + e1 + e2, e3[0], 0, l);
    RunMore(e0 + e1 + e2 + e3, e2[0], 0, l);
    RunMore(e0 + e1 + e2 + e3 + e2, e4[0], 0, l);
    RunMore(e0 + e1 + e2 + e3 + e2 + e4, e5[0], 0, l);
    events := e0 + e1 + e2 + e3 + e2 + e4 + e5;
    LeakSteps(w);
    CountThree(Admission(day + 1, 0), Admission(day + 1, day + 1), Admission(2 * day + 2, 2 * day + 2), day + 1, day + 1 + w);
  }

  lemma RunNothing(start: int, l: Limits)
    ensures Run([], start, l) == Trace(None, [], start)
  {
  }

  lemma CountThree(a: Admission, b: Admission, c: Admission, from: int, to: int)
    requires from <= a.t < to && from <= b.t < to && from <= c.t < to
    ensures CountIn([] + [a] + [b] + [c], from, to) == 3
  {
    CountMore([], a, from, to);
    CountMore([] + [a], b, from, to);
    CountMore([] + [a] + [b], c, from, to);
  }

  /** The admissions in the window-long interval from `from`. */
  function Peak(events: seq<Timed>, start: int, l: Limits, from: int): nat {
    CountIn(Run(events, start, l).log, from, from + l.windowMs)
  }

  ghost predicate TwiceBounds(w: int) {
    forall events, start, l: Limits, from ::
      l.windowMs == w && Clocked(events, start) ==> Peak(events, start, l, from) <= 2 * l.maxActions
  }

  /** Twice the limit is a bound on every run exactly when a window is at most a day and a millisecond. */
  lemma BoundedExactlyForShortWindows(w: int)
    requires w > 0
    ensures TwiceBounds(w) <==> w <= DAY_MS + 1
  {
    hide Peak, Clocked;
    if w <= DAY_MS + 1 {
      forall events, start, l: Limits, from | l.windowMs == w && Clocked(events, start)
        ensures Peak(events, start, l, from) <= 2 * l.maxActions
      {
        AtMostTwiceTheLimit(events, start, l, from);
      }
    } else {
      var events := LongWindowsLeak(w);
      assert Peak(events, 0, Limits(w, 1, 1.0, 2.0, 1.0), DAY_MS + 1) > 2 * 1;
    }
  }

  // ----- The anti-cheat in place -----

  class AntiCheat {
    const limits: Limits
    var rateLimits: map<Wallet, Entry>

    constructor (limits: Limits)
      ensures this.limits == limits && rateLimits == map[]
    {
      this.limits, rateLimits := limits, map[];
    }

    function EntryOf(w: Wallet): Option<Entry>
      reads this
    {
      if w in rateLimits then Some(rateLimits[w]) else None
    }

    method CheckAction(w: Wallet, now: int) returns (verdict: Verdict)
      modifies this
      ensures var entry := EntryOr(old(EntryOf(w)), now);
              verdict == Judge(entry, now, limits) && rateLimits == old(rateLimits)[w := Checked(entry, now, limits)]
    {
      var e := if w in rateLimits then rateLimits[w] else Entry(0, now, 0, None);
      rateLimits := rateLimits[w := e];
      if e.backoffUntil.Some? && e.backoffUntil.value != 0.0 && now as real < e.backoffUntil.value {
        return InBackoff(e.backoffUntil.value - now as real);
      }
      if now - e.windowStart >= limits.windowMs {
        e := e.(count := 0);
        e := e.(windowStart := now);
        rateLimits := rateLimits[w := e];
      }
      if e.count >= limits.maxActions {
        return Limited(limits.windowMs - (now - e.windowStart));
      }
      rateLimits := rateLimits[w := e.(count := e.count + 1)];
      return Allowed;
    }

    method RecordFailedAction(w: Wallet, now: int)
      modifies this
      ensures rateLimits == old(rateLimits)[w := Failed(EntryOr(old(EntryOf(w)), now), now, limits)]
    {
      hide Backoff;
      var e := if w in rateLimits then rateLimits[w] else Entry(0, now, 0, None);
      e := e.(failed := e.failed + 1);
      var backoff := Backoff(limits, e.failed);
      rateLimits := rateLimits[w := e.(backoffUntil := Some(now as real + backoff))];
    }

    method RecordSuccessfulAction(w: Wallet)
      modifies this
      ensures rateLimits == if w in old(rateLimits)
                            then old(rateLimits)[w := old(rateLimits)[w].(failed := 0, backoffUntil := None)] else old(rateLimits)
    {
      if w in rateLimits {
        rateLimits := rateLimits[w := rateLimits[w].(failed := 0, backoffUntil := None)];
      }
    }

    /** The part of the cleanup that concerns rate limits. */
    method CleanupExpiredEntries(now: int)
      modifies this
      ensures rateLimits == map w | w in old(rateLimits) && !Expired(old(rateLimits)[w], now) :: old(rateLimits)[w]
    {
      var todo := rateLimits.Keys;
      while todo != {}
        invariant todo <= rateLimits.Keys
        invariant rateLimits == map w | w in old(rateLimits) && (w in todo || !Expired(old(rateLimits)[w], now))
                                        :: old(rateLimits)[w]
        decreases |todo|
      {
        var w :| w in todo;
        if Expired(rateLimits[w], now) {
          rateLimits := rateLimits - {w};
        }
        todo := todo - {w};
      }
    }
  }

  /** A failed attempt right after its predecessors never waits longer than the cap, nor less than the first time. */
  lemma BackoffGrows(l: Limits, failed: nat)
    requires failed > 0 && l.initialBackoff >= 0.0 && l.multiplier >= 1.0 && l.maxBackoff >= 0.0
    ensures Backoff(l, failed) <= Backoff(l, failed + 1) <= l.maxBackoff
    ensures Min(l.initialBackoff, l.maxBackoff) <= Backoff(l, failed)
  {
    hide Uncapped;
    UncappedGrows(l, failed);
  }

  /** The first failure waits the initial time, each further one longer by the multiplier, all up to the cap. */
  lemma BackoffMultiplies(l: Limits, failed: nat)
    requires failed > 0
    ensures Backoff(l, 1) == Min(l.initialBackoff, l.maxBackoff)
    ensures Backoff(l, failed) == Min(Uncapped(l, failed), l.maxBackoff)
    ensures Backoff(l, failed + 1) == Min(Uncapped(l, failed) * l.multiplier, l.maxBackoff)
  {
    PowerNext(l.multiplier, failed);
    Reorder(l.initialBackoff, l.multiplier, Power(l.multiplier, failed - 1));
  }

  lemma Reorder(a: real, b: real, c: real)
    ensures a * (b * c) == a * c * b
  {
  }

  /** A failed attempt blocks the wallet exactly until its backoff is over; a successful one lifts any backoff. */
  lemma FailureBlocks(e: Entry, now: int, later: int, l: Limits)
    requires now as real + Backoff(l, e.failed + 1) != 0.0
    ensures Judge(Failed(e, now, l), later, l).InBackoff? <==> (later as real) < now as real + Backoff(l, e.failed + 1)
    ensures Failed(e, now, l).failed == e.failed + 1
    ensures Judge(e.(failed := 0, backoffUntil := None), later, l).InBackoff? <==> false
  {
    hide Backoff;
  }

  lemma UncappedGrows(l: Limits, failed: nat)
    requires failed > 0 && l.initialBackoff >= 0.0 && l.multiplier >= 1.0
    ensures l.initialBackoff <= Uncapped(l, failed) <= Uncapped(l, failed + 1)
  {
    hide Power;
    PowerAtLeastOne(l.multiplier, failed - 1);
    PowerNext(l.multiplier, failed);
    var p := Power(l.multiplier, failed - 1);
    ScaleMonotone(1.0, l.multiplier, p);
    ScaleMonotone(1.0, p, l.initialBackoff);
    ScaleMonotone(p, Power(l.multiplier, failed), l.initialBackoff);
  }

  lemma PowerNext(base: real, n: nat)
    requires n > 0
    ensures Power(base, n) == base * Power(base, n - 1)
  {
  }

  lemma {:induction false} PowerAtLeastOne(base: real, n: nat)
    requires base >= 1.0
    ensures Power(base, n) >= 1.0
  {
    if n > 0 {
      PowerAtLeastOne(base, n - 1);
      ScaleMonotone(1.0, Power(base, n - 1), base);
    }
  }

  // ----- Sliding windows: bridging and chat -----

  /** The stamps younger than the window. */
  function Recent(stamps: seq<int>, cutoff: int): seq<int> {
    if stamps == [] then []
    else Recent(stamps[..|stamps| - 1], cutoff) + (if stamps[|stamps| - 1] > cutoff then [stamps[|stamps| - 1]] else [])
  }

  function CountBetween(stamps: seq<int>, from: int, to: int): nat {
    if stamps == [] then 0
    else CountBetween(stamps[..|stamps| - 1], from, to) + (if from <= stamps[|stamps| - 1] < to then 1 else 0)
  }

  /** Each stamp was let in while fewer than `cap` were younger than the window. */
  ghost predicate LetIn(stamps: seq<int>, cap: nat, w: int) {
    forall i :: 0 <= i < |stamps| ==> |Recent(stamps[..i], stamps[i] - w)| < cap
  }

  lemma {:induction false} RecentTwice(stamps: seq<int>, early: int, late: int)
    requires early <= late
    ensures Recent(Recent(stamps, early), late) == Recent(stamps, late)
  {
    if stamps != [] {
      var n := |stamps| - 1;
      RecentTwice(stamps[..n], early, late);
      var r := Recent(stamps[..n], early);
      assert (r + [stamps[n]])[..|r|] == r;
      assert r + [] == r;
    }
  }

  lemma {:induction false} CountedIsRecent(stamps: seq<int>, from: int, to: int, cutoff: int)
    requires cutoff < from
    ensures CountBetween(stamps, from, to) <= |Recent(stamps, cutoff)|
  {
    if stamps != [] {
      CountedIsRecent(stamps[..|stamps| - 1], from, to, cutoff);
    }
  }

  /** A sliding window never lets more than its cap through in any interval of its length. */
  lemma {:induction false} SlidingCap(stamps: seq<int>, cap: nat, w: int, from: int)
    requires LetIn(stamps, cap, w) && w > 0
    ensures CountBetween(stamps, from, from + w) <= cap
  {
    hide Recent;
    if stamps != [] {
      var n := |stamps| - 1;
      if from <= stamps[n] < from + w {
        CountedIsRecent(stamps[..n], from, from + w, stamps[n] - w);
      } else {
        forall i | 0 <= i < n ensures |Recent(stamps[..n][..i], stamps[..n][i] - w)| < cap {
          assert stamps[..n][..i] == stamps[..i];
        }
        SlidingCap(stamps[..n], cap, w, from);
      }
    }
  }

  ghost predicate NonDecreasing(stamps: seq<int>) {
    forall i, j :: 0 <= i < j < |stamps| ==> stamps[i] <= stamps[j]
  }

  /** The stamps in the interval of length `w` from `from`. */
  function Seen(stamps: seq<int>, from: int, w: int): nat {
    CountBetween(stamps, from, from + w)
  }

  /** Every interval of length `w` sees at most `cap` of the stamps. */
  ghost predicate EveryIntervalFits(stamps: seq<int>, cap: nat, w: int) {
    forall from :: Seen(stamps, from, w) <= cap
  }

  lemma {:induction false} PrefixCountsLess(stamps: seq<int>, k: nat, from: int, to: int)
    requires k <= |stamps|
    ensures CountBetween(stamps[..k], from, to) <= CountBetween(stamps, from, to)
  {
    if k < |stamps| {
      PrefixCountsLess(stamps[..|stamps| - 1], k, from, to);
      assert stamps[..|stamps| - 1][..k] == stamps[..k];
    } else {
      assert stamps[..k] == stamps;
    }
  }

  lemma {:induction false} RecentAreCounted(stamps: seq<int>, from: int, to: int)
    requires forall i :: 0 <= i < |stamps| ==> stamps[i] < to
    ensures CountBetween(stamps, from, to) == |Recent(stamps, from - 1)|
  {
    if stamps != [] {
      RecentAreCounted(stamps[..|stamps| - 1], from, to);
    }
  }

  /** The stamps in the window that ends with `stamps[i]`. */
  lemma WindowEndingAt(stamps: seq<int>, i: nat, w: int)
    requires NonDecreasing(stamps) && i < |stamps| && w > 0
    ensures var from := stamps[i] - w + 1;
            CountBetween(stamps, from, from + w) >= |Recent(stamps[..i], stamps[i] - w)| + 1
  {
    hide Recent;
    var from := stamps[i] - w + 1;
    PrefixCountsLess(stamps, i + 1, from, from + w);
    assert stamps[..i + 1][..i] == stamps[..i];
    RecentAreCounted(stamps[..i], from, from + w);
  }

  /**
   * Actions keep a limit in every interval of its length exactly when each was let in while fewer than the limit
   * were younger than the window: a sliding window is not only enough for that, it is what it takes.
   */
  lemma EveryIntervalFitsExactlyWhen(stamps: seq<int>, cap: nat, w: int)
    requires NonDecreasing(stamps) && w > 0
    ensures EveryIntervalFits(stamps, cap, w) <==> LetIn(stamps, cap, w)
  {
    hide CountBetween, Recent, NonDecreasing;
    if LetIn(stamps, cap, w) {
      forall from ensures Seen(stamps, from, w) <= cap {
        SlidingCap(stamps, cap, w, from);
      }
    }
    if EveryIntervalFits(stamps, cap, w) {
      forall i | 0 <= i < |stamps| ensures |Recent(stamps[..i], stamps[i] - w)| < cap {
        WindowEndingAt(stamps, i, w);
        assert Seen(stamps, stamps[i] - w + 1, w) <= cap;
      }
    }
  }

  // ----- When the fixed window keeps its limit -----

  function Times(log: seq<Admission>): (stamps: seq<int>)
    ensures |stamps| == |log|
  {
    seq(|log|, i requires 0 <= i < |log| => log[i].t)
  }

  lemma {:induction false} SameCount(log: seq<Admission>, from: int, to: int)
    ensures CountBetween(Times(log), from, to) == CountIn(log, from, to)
  {
    if log != [] {
      SameCount(log[..|log| - 1], from, to);
      assert Times(log)[..|log| - 1] == Times(log[..|log| - 1]);
    }
  }

  lemma {:induction false} AdmissionsInOrder(events: seq<Timed>, start: int, l: Limits)
    requires Clocked(events, start)
    ensures NonDecreasing(Times(Run(events, start, l).log))
    ensures forall a :: a in Run(events, start, l).log ==> a.t <= Run(events, start, l).clock
    ensures Run(events, start, l).clock == if events == [] then start else events[|events| - 1].now
  {
    if events != [] {
      hide Step, Times;
      AdmissionsInOrder(events[..|events| - 1], start, l);
      StepInOrder(Run(events[..|events| - 1], start, l), events[|events| - 1], l);
      StepClock(Run(events[..|events| - 1], start, l), events[|events| - 1], l);
    }
  }

  lemma StepInOrder(s: Trace, e: Timed, l: Limits)
    requires NonDecreasing(Times(s.log)) && (forall a :: a in s.log ==> a.t <= s.clock) && s.clock <= e.now
    ensures var s' := Step(s, e.event, e.now, l); NonDecreasing(Times(s'.log)) && forall a :: a in s'.log ==> a.t <= e.now
  {
    hide Checked, Failed, Judge;
    var log := Step(s, e.event, e.now, l).log;
    assert log == s.log || (|log| == |s.log| + 1 && log[..|s.log|] == s.log && log[|s.log|].t == e.now);
    assert forall i :: 0 <= i < |s.log| ==> Times(log)[i] == Times(s.log)[i] && s.log[i] in s.log;
  }

  /**
   * A run keeps the limit in every interval of one window length exactly when each action was admitted while
   * fewer than the limit were younger than the window, which is what a sliding window would have checked.
   */
  lemma LimitHoldsExactlyWhen(events: seq<Timed>, start: int, l: Limits)
    requires Clocked(events, start) && l.windowMs > 0
    ensures (forall from :: Peak(events, start, l, from) <= l.maxActions)
            <==> LetIn(Times(Run(events, start, l).log), l.maxActions, l.windowMs)
  {
    hide Run, LetIn, CountIn, CountBetween, Times, NonDecreasing;
    var log := Run(events, start, l).log;
    AdmissionsInOrder(events, start, l);
    EveryIntervalFitsExactlyWhen(Times(log), l.maxActions, l.windowMs);
    forall from ensures Seen(Times(log), from, l.windowMs) == Peak(events, start, l, from) {
      SameCount(log, from, from + l.windowMs);
    }
  }

  ghost predicate LimitBounds(w: int, max: nat) {
    forall events, start, l: Limits, from ::
      l.windowMs == w && l.maxActions == max && Clocked(events, start) ==> Peak(events, start, l, from) <= max
  }

  lemma {:induction false} NothingAdmitted(events: seq<Timed>, start: int, l: Limits)
    requires l.maxActions == 0
    ensures Run(events, start, l).log == []
  {
    if events != [] {
      NothingAdmitted(events[..|events| - 1], start, l);
    }
  }

  /** With windows of 1 ms an interval is one window. */
  lemma OneMillisecond(events: seq<Timed>, start: int, l: Limits, from: int)
    requires l.windowMs == 1 && Clocked(events, start)
    ensures Peak(events, start, l, from) <= l.maxActions
  {
    RunKeepsInv(events, start, l);
    hide Run;
    CountInOne(Run(events, start, l).log, from, from + 1, from);
  }

  lemma {:induction false} CountInOne(log: seq<Admission>, from: int, to: int, window: int)
    requires forall i :: 0 <= i < |log| && from <= log[i].t < to ==> log[i].window == window
    ensures CountIn(log, from, to) <= CountOf(log, window)
  {
    if log != [] {
      CountInOne(log[..|log| - 1], from, to, window);
    }
  }

  /** The limit itself bounds every run exactly when windows last one millisecond or nothing is admitted at all. */
  lemma LimitBoundsExactlyWhen(w: int, max: nat)
    requires w > 0
    ensures LimitBounds(w, max) <==> w == 1 || max == 0
  {
    hide Peak, Clocked;
    if w == 1 || max == 0 {
      forall events, start, l: Limits, from | l.windowMs == w && l.maxActions == max && Clocked(events, start)
        ensures Peak(events, start, l, from) <= max
      {
        if max == 0 {
          NoPeak(events, start, l, from);
        } else {
          OneMillisecond(events, start, l, from);
        }
      }
    } else {
      var l := Limits(w, max, 1.0, 2.0, 1.0);
      var events := TwiceIsReached(l);
      assert Peak(events, 0, l, w - 1) > max;
    }
  }

  lemma NoPeak(events: seq<Timed>, start: int, l: Limits, from: int)
    requires l.maxActions == 0
    ensures Peak(events, start, l, from) == 0
  {
    NothingAdmitted(events, start, l);
  }

  const BRIDGE_WINDOW_MS := 60 * 60 * 1000
  const CHAT_WINDOW_MS := 10000
  const CHAT_MAX_PER_WINDOW := 5

  /** What the gateway's two limiters guarantee a wallet's bridges and chat lines. */
  lemma GatewayCaps(chat: seq<int>, bridges: seq<int>, bridgeMaxPerHour: nat, from: int)
    requires LetIn(chat, CHAT_MAX_PER_WINDOW, CHAT_WINDOW_MS) && LetIn(bridges, bridgeMaxPerHour, BRIDGE_WINDOW_MS)
    ensures CountBetween(chat, from, from + 10000) <= 5
    ensures CountBetween(bridges, from, from + 3600000) <= bridgeMaxPerHour
  {
    hide CountBetween, LetIn;
    SlidingCap(chat, CHAT_MAX_PER_WINDOW, CHAT_WINDOW_MS, from);
    SlidingCap(bridges, bridgeMaxPerHour, BRIDGE_WINDOW_MS, from);
  }

  /** The gateway's per-wallet timestamps, with everything ever let in. */
  class SlidingLimiter {
    const windowMs: int
    const cap: nat
    var stamps: map<Wallet, seq<int>>
    ghost var log: map<Wallet, seq<int>>
    ghost var clock: int

    ghost function Log(w: Wallet): seq<int>
      reads this`log
    {
      if w in log then log[w] else []
    }

    ghost function Stored(w: Wallet): seq<int>
      reads this`stamps
    {
      if w in stamps then stamps[w] else []
    }

    ghost predicate Valid()
      reads this
    {
      windowMs > 0 && forall w :: Kept(Stored(w), Log(w), cap, windowMs, clock)
    }

    constructor (windowMs: int, cap: nat, now: int)
      requires windowMs > 0
      ensures Valid() && this.windowMs == windowMs && this.cap == cap && log == map[] && clock == now
    {
      this.windowMs, this.cap, stamps, log, clock := windowMs, cap, map[], map[], now;
      new;
      forall w ensures Kept(Stored(w), Log(w), cap, windowMs, clock) {
        assert Stored(w) == Recent(Log(w), now - windowMs);
      }
    }

    /** The filter. */
    method Filter(all: seq<int>, cutoff: int) returns (recent: seq<int>)
      ensures recent == Recent(all, cutoff)
    {
      recent := [];
      for i := 0 to |all|
        invariant recent == Recent(all[..i], cutoff)
      {
        assert all[..i + 1][..i] == all[..i];
        if all[i] > cutoff {
          recent := recent + [all[i]];
        }
      }
      assert all[..|all|] == all;
    }

    /** Lets an action through exactly when its whole history shows fewer than `cap` in the window before it. */
    method TryAct(w: Wallet, now: int) returns (ok: bool)
      requires Valid() && now >= clock
      modifies this
      ensures Valid() && clock == now
      ensures ok <==> |Recent(old(Log(w)), now - windowMs)| < cap
      ensures log == if ok then old(log)[w := old(Log(w)) + [now]] else old(log)
    {
      hide Recent, LetIn, Kept;
      var all := if w in stamps then stamps[w] else [];
      KeptLets(Stored(w), Log(w), cap, windowMs, clock, now);
      forall v ensures Kept(Stored(v), Log(v), cap, windowMs, now) {
        KeptLater(Stored(v), Log(v), cap, windowMs, clock, now);
      }
      var recent := Filter(all, now - windowMs);
      clock := now;
      if |recent| >= cap {
        return false;
      }
      KeptMore(Log(w), cap, windowMs, now);
      ghost var history := Log(w);
      assert Kept(recent + [now], history + [now], cap, windowMs, now);
      stamps := stamps[w := recent + [now]];
      log := log[w := history + [now]];
      assert Stored(w) == recent + [now] && Log(w) == history + [now];
      forall v ensures Kept(Stored(v), Log(v), cap, windowMs, now) {
        if v != w {
          assert Stored(v) == old(Stored(v)) && Log(v) == old(Log(v));
          assert old(Kept(Stored(v), Log(v), cap, windowMs, now));
        }
      }
      return true;
    }
  }

  /** The stored stamps are the part of the history since some cutoff that has passed. */
  ghost predicate Kept(stored: seq<int>, history: seq<int>, cap: nat, w: int, clock: int) {
    LetIn(history, cap, w) && exists cutoff :: cutoff <= clock - w && stored == Recent(history, cutoff)
  }

  lemma KeptLater(stored: seq<int>, history: seq<int>, cap: nat, w: int, clock: int, now: int)
    requires Kept(stored, history, cap, w, clock) && clock <= now
    ensures Kept(stored, history, cap, w, now)
  {
    hide LetIn, Recent;
  }

  /** Filtering what is stored is filtering the whole history. */
  lemma KeptLets(stored: seq<int>, history: seq<int>, cap: nat, w: int, clock: int, now: int)
    requires Kept(stored, history, cap, w, clock) && clock <= now
    ensures Recent(stored, now - w) == Recent(history, now - w) && LetIn(history, cap, w)
  {
    hide LetIn, Recent;
    var early :| early <= clock - w && stored == Recent(history, early);
    RecentTwice(history, early, now - w);
  }

  lemma KeptMore(history: seq<int>, cap: nat, w: int, now: int)
    requires LetIn(history, cap, w) && |Recent(history, now - w)| < cap && w > 0
    ensures Kept(Recent(history, now - w) + [now], history + [now], cap, w, now)
  {
    hide LetIn;
    LetInMore(history, cap, w, now);
    assert (history + [now])[..|history|] == history;
    assert Recent(history + [now], now - w) == Recent(history, now - w) + [now];
  }

  lemma LetInMore(stamps: seq<int>, cap: nat, w: int, now: int)
    requires LetIn(stamps, cap, w) && |Recent(stamps, now - w)| < cap
    ensures LetIn(stamps + [now], cap, w)
  {
    hide Recent;
    var more := stamps + [now];
    forall i | 0 <= i < |more| ensures |Recent(more[..i], more[i] - w)| < cap {
      assert more[..i] == stamps[..i];
      assert stamps[..|stamps|] == stamps;
    }
  }
}
