/**
 `RollingCounters`: how many proposals a tumbling hour and day can let through
 (crates/evohime-core/src/ambient_proactivity.rs, crates/evohime-listener-contract/src/proactivity.rs).
 */
module Proactivity {
  import opened Machine

  const HOUR_MS: nat := 60 * 60 * 1000
  const DAY_MS: nat := 24 * 60 * 60 * 1000

  /** Start and count of one tumbling window. */
  datatype Window = Window(start: u64, count: u32)

  datatype Counters = Counters(hour: Window, day: Window, last: Option<u64>)

  const INITIAL: Counters := Counters(Window(0, 0), Window(0, 0), None)

  datatype Budget = Budget(maxPerHour: u32, maxPerDay: u32, minIntervalMs: u64)

  datatype Denial =
    | Forbidden | Muted | Paused | QuietHours | HourlyCapReached | DailyCapReached | TooSoon(retryAfterMs: u64)

  /** What is decided before the counters are looked at. */
  datatype Gates = Gates(authorized: bool, muted: bool, paused: bool, quiet: bool)

  // -------------------------------------------------------------------- one window

  /** A window is left only when its full length has passed; a clock set back does not leave it. */
  function Roll(w: Window, now: u64, length: nat): Window {
    if SatSub64(now, w.start) >= length then Window(now, 0) else w
  }

  function Tick(w: Window, now: u64, length: nat): Window {
    var r := Roll(w, now, length);
    Window(if r.count == 0 then now else r.start, SatAdd(r.count, 1))
  }

  // -------------------------------------------------------------------- the counters

  function Rolled(c: Counters, now: u64): Counters {
    c.(hour := Roll(c.hour, now, HOUR_MS), day := Roll(c.day, now, DAY_MS))
  }

  function Record(c: Counters, now: u64): Counters {
    Counters(Tick(c.hour, now, HOUR_MS), Tick(c.day, now, DAY_MS), Some(now))
  }

  /** `ProactivityBudget::check`. */
  function Check(b: Budget, c: Counters, now: u64): Result<(), Denial> {
    if c.hour.count >= b.maxPerHour then Err(HourlyCapReached)
    else if c.day.count >= b.maxPerDay then Err(DailyCapReached)
    else if c.last.Some? && (now < c.last.value || now - c.last.value < b.minIntervalMs)
      then Err(TooSoon(SatSub64(b.minIntervalMs, SatSub64(now, c.last.value))))
    else Ok(())
  }

  /** `decide_proposal`: effects, mute and policy come first, so that they never spend the budget. */
  function Decide(g: Gates, b: Budget, c: Counters, now: u64): Result<(), Denial> {
    if !g.authorized then Err(Forbidden)
    else if g.muted then Err(Muted)
    else if g.paused then Err(Paused)
    else if g.quiet then Err(QuietHours)
    else Check(b, Rolled(c, now), now)
  }

  // ------------------------------------------------------------------------ runs

  /** One attempt; a card that was allowed may still fail to appear and is then not recorded. */
  datatype Attempt = Attempt(now: u64, gates: Gates, shown: bool)

  predicate Accepts(b: Budget, c: Counters, a: Attempt) {
    Decide(a.gates, b, c, a.now).Ok? && a.shown
  }

  function Run(b: Budget, attempts: seq<Attempt>): Counters {
    if attempts == [] then INITIAL
    else
      var c, a := Run(b, attempts[..|attempts| - 1]), attempts[|attempts| - 1];
      if Accepts(b, c, a) then Record(c, a.now) else c
  }

  /** The clock readings at which a run showed something. */
  function Shown(b: Budget, attempts: seq<Attempt>): seq<u64> {
    if attempts == [] then []
    else
      var front, a := attempts[..|attempts| - 1], attempts[|attempts| - 1];
      if Accepts(b, Run(b, front), a) then Shown(b, front) + [a.now] else Shown(b, front)
  }

  function Recorded(ts: seq<u64>): Counters {
    if ts == [] then INITIAL else Record(Recorded(ts[..|ts| - 1]), ts[|ts| - 1])
  }

  /** Every reading passed the budget check against the counters left by the readings before it. */
  ghost predicate Admissible(b: Budget, ts: seq<u64>) {
    forall k :: 0 <= k < |ts| ==> Check(b, Rolled(Recorded(ts[..k]), ts[k]), ts[k]).Ok?
  }

  lemma {:induction false} RunsAreAdmissible(b: Budget, attempts: seq<Attempt>)
    ensures Run(b, attempts) == Recorded(Shown(b, attempts)) && Admissible(b, Shown(b, attempts))
  {
    if attempts != [] {
      var front, a := attempts[..|attempts| - 1], attempts[|attempts| - 1];
      RunsAreAdmissible(b, front);
      if Accepts(b, Run(b, front), a) {
        var before, ts := Shown(b, front), Shown(b, attempts);
        assert ts[..|before|] == before;
        forall k | 0 <= k < |ts| ensures Check(b, Rolled(Recorded(ts[..k]), ts[k]), ts[k]).Ok? {
          if k < |before| { assert ts[..k] == before[..k]; }
        }
      }
    }
  }

  // --------------------------------------------------- readings in the life of a window

  /** A window after the first readings. */
  function Opened(ts: seq<u64>, length: nat): Window {
    if ts == [] then Window(0, 0) else Tick(Opened(ts[..|ts| - 1], length), ts[|ts| - 1], length)
  }

  ghost predicate Capped(ts: seq<u64>, length: nat, cap: nat) {
    forall k :: 0 <= k < |ts| ==> Roll(Opened(ts[..k], length), ts[k], length).count < cap
  }

  ghost predicate Monotone(ts: seq<u64>) {
    forall i, j :: 0 <= i < j < |ts| ==> ts[i] <= ts[j]
  }

  lemma {:induction false} RecordedWindows(ts: seq<u64>)
    ensures Recorded(ts).hour == Opened(ts, HOUR_MS) && Recorded(ts).day == Opened(ts, DAY_MS)
    ensures Recorded(ts).last == if ts == [] then None else Some(ts[|ts| - 1])
  {
    if ts != [] { RecordedWindows(ts[..|ts| - 1]); }
  }

  lemma StepSpaced(b: Budget, ts: seq<u64>, j: nat)
    requires Admissible(b, ts) && 0 < j < |ts|
    ensures ts[j] >= ts[j - 1] + b.minIntervalMs
  {
    RecordedWindows(ts[..j]);
    assert Check(b, Rolled(Recorded(ts[..j]), ts[j]), ts[j]).Ok?;
    assert Rolled(Recorded(ts[..j]), ts[j]).last == Some(ts[j - 1]);
  }

  /** `n` copies of `x`. */
  function Times(n: nat, x: nat): nat {
    if n == 0 then 0 else Times(n - 1, x) + x
  }

  lemma {:induction false} TimesIsProduct(n: nat, x: nat)
    ensures Times(n, x) == n * x
  {
    if n > 0 {
      TimesIsProduct(n - 1, x);
      assert (n - 1) * x + x == n * x;
    }
  }

  /** Each reading comes at least `x` after the one before it. */
  ghost predicate Stepped(ts: seq<u64>, x: nat) {
    forall j :: 0 < j < |ts| ==> ts[j] >= ts[j - 1] + x
  }

  lemma {:induction false} SteppedApart(ts: seq<u64>, x: nat, i: nat, j: nat)
    requires Stepped(ts, x) && i <= j < |ts|
    ensures ts[j] >= ts[i] + Times(j - i, x)
    decreases j
  {
    if i < j { SteppedApart(ts, x, i, j - 1); }
  }

  lemma AdmissibleSteps(b: Budget, ts: seq<u64>)
    requires Admissible(b, ts)
    ensures Stepped(ts, b.minIntervalMs)
  {
    forall k | 0 < k < |ts| ensures ts[k] >= ts[k - 1] + b.minIntervalMs { StepSpaced(b, ts, k); }
  }

  /** Whatever the clock does, accepted readings are at least the minimum interval apart and never go back. */
  lemma Spaced(b: Budget, ts: seq<u64>, i: nat, j: nat)
    requires Admissible(b, ts) && i <= j < |ts|
    ensures ts[j] >= ts[i] + Times(j - i, b.minIntervalMs)
  {
    AdmissibleSteps(b, ts);
    SteppedApart(ts, b.minIntervalMs, i, j);
  }

  lemma AdmissibleIsCapped(b: Budget, ts: seq<u64>)
    requires Admissible(b, ts)
    ensures Capped(ts, HOUR_MS, b.maxPerHour) && Capped(ts, DAY_MS, b.maxPerDay)
  {
    forall k | 0 <= k < |ts|
      ensures Roll(Opened(ts[..k], HOUR_MS), ts[k], HOUR_MS).count < b.maxPerHour
      ensures Roll(Opened(ts[..k], DAY_MS), ts[k], DAY_MS).count < b.maxPerDay
    {
      RecordedWindows(ts[..k]);
      assert Check(b, Rolled(Recorded(ts[..k]), ts[k]), ts[k]).Ok?;
    }
  }

  lemma AdmissibleIsMonotone(b: Budget, ts: seq<u64>)
    requires Admissible(b, ts)
    ensures Monotone(ts)
  {
    forall i, j | 0 <= i < j < |ts| ensures ts[i] <= ts[j] { Spaced(b, ts, i, j); }
  }

  /** `counts[k]` is how many readings the window holds after reading `k`: it opened at the first of them, never holds
      more than the cap, and gives way to a new one only when its length has passed. */
  ghost predicate Chained(ts: seq<u64>, counts: seq<nat>, length: nat, cap: nat) {
    && |counts| == |ts|
    && (forall k :: 0 <= k < |ts| ==> 1 <= counts[k] <= cap && counts[k] <= k + 1)
    && (forall k :: 0 < k < |ts| ==> Follows(ts, counts, length, k))
  }

  ghost predicate Follows(ts: seq<u64>, counts: seq<nat>, length: nat, k: nat)
    requires |counts| == |ts| && 0 < k < |ts|
  {
    var first := k - counts[k - 1];
    && 0 <= first
    && if ts[k] < ts[first] + length then counts[k] == counts[k - 1] + 1 else counts[k] == 1
  }

  /** The window after reading `k` holds the last `count` readings and opened at the first of them. */
  lemma {:induction false} WindowHolds(ts: seq<u64>, length: nat, cap: nat, k: nat)
    requires Capped(ts, length, cap) && length > 0 && cap <= U32_MAX && k < |ts|
    ensures var w := Opened(ts[..k + 1], length);
      1 <= w.count <= cap && w.count <= k + 1 && w.start == ts[k + 1 - w.count]
  {
    assert ts[..k + 1][..k] == ts[..k];
    if k > 0 { WindowHolds(ts, length, cap, k - 1); }
  }

  /** From one reading to the next a window either goes on or a full length has passed since it opened. */
  lemma NextTick(w: Window, now: u64, length: nat, cap: nat)
    requires Roll(w, now, length).count < cap <= U32_MAX && length > 0 && w.count >= 1
    ensures var after := Tick(w, now, length);
      after.count == if now < w.start + length then w.count + 1 else 1
  {
  }

  lemma OpenedStep(ts: seq<u64>, length: nat, k: nat)
    requires k < |ts|
    ensures Opened(ts[..k + 1], length) == Tick(Opened(ts[..k], length), ts[k], length)
  {
    assert ts[..k + 1][..k] == ts[..k];
  }

  /** How many readings the window holds after each reading. */
  function Held(ts: seq<u64>, length: nat): (counts: seq<nat>)
    ensures |counts| == |ts| && forall k :: 0 <= k < |ts| ==> counts[k] == Opened(ts[..k + 1], length).count
  {
    seq(|ts|, k requires 0 <= k < |ts| => Opened(ts[..k + 1], length).count)
  }

  lemma TickFollows(ts: seq<u64>, counts: seq<nat>, length: nat, cap: nat, k: nat, w: Window)
    requires 0 < k < |ts| == |counts| && length > 0 && cap <= U32_MAX && 1 <= w.count <= k
    requires w.start == ts[k - w.count] && Roll(w, ts[k], length).count < cap
    requires counts[k - 1] == w.count && counts[k] == Tick(w, ts[k], length).count
    ensures Follows(ts, counts, length, k)
  {
    NextTick(w, ts[k], length, cap);
  }

  lemma HeldBefore(ts: seq<u64>, length: nat, k: nat)
    requires 0 < k < |ts|
    ensures Held(ts, length)[k - 1] == Opened(ts[..k], length).count
    ensures Held(ts, length)[k] == Opened(ts[..k + 1], length).count
  {
    assert ts[..k - 1 + 1] == ts[..k];
  }

  lemma CappedAt(ts: seq<u64>, length: nat, cap: nat, k: nat)
    requires Capped(ts, length, cap) && k < |ts|
    ensures Roll(Opened(ts[..k], length), ts[k], length).count < cap
  {
  }

  lemma HeldFollows(ts: seq<u64>, length: nat, cap: nat, k: nat)
    requires Capped(ts, length, cap) && length > 0 && cap <= U32_MAX && 0 < k < |ts|
    ensures Follows(ts, Held(ts, length), length, k)
  {
    WindowHolds(ts, length, cap, k - 1);
    OpenedStep(ts, length, k);
    HeldBefore(ts, length, k);
    CappedAt(ts, length, cap, k);
    TickFollows(ts, Held(ts, length), length, cap, k, Opened(ts[..k], length));
  }

  lemma WindowsChain(ts: seq<u64>, length: nat, cap: nat)
    requires Capped(ts, length, cap) && length > 0 && cap <= U32_MAX
    ensures Chained(ts, Held(ts, length), length, cap)
  {
    var counts := Held(ts, length);
    forall k | 0 <= k < |ts| ensures 1 <= counts[k] <= cap && counts[k] <= k + 1 { WindowHolds(ts, length, cap, k); }
    forall k | 0 < k < |ts| ensures Follows(ts, counts, length, k) { HeldFollows(ts, length, cap, k); }
  }

  /** A window that opened at reading `a` is followed by another within `cap` readings, at least its length later. */
  lemma {:induction false} NextWindow(ts: seq<u64>, counts: seq<nat>, length: nat, cap: nat, a: nat, k: nat)
    returns (b: nat)
    requires Chained(ts, counts, length, cap) && a <= k < a + cap < |ts| && counts[k] == k + 1 - a
    ensures k < b <= a + cap && counts[b] == 1 && ts[b] >= ts[a] + length
    decreases a + cap - k
  {
    assert Follows(ts, counts, length, k + 1);
    if counts[k + 1] == counts[k] + 1 {
      b := NextWindow(ts, counts, length, cap, a, k + 1);
    } else {
      b := k + 1;
    }
  }

  /** Any `2 * cap` consecutive readings span at least the length of a window. */
  lemma TwoWindowsSpan(ts: seq<u64>, counts: seq<nat>, length: nat, cap: nat, i: nat)
    requires Chained(ts, counts, length, cap) && Monotone(ts) && 1 <= cap && i + 2 * cap - 1 < |ts|
    ensures ts[i + 2 * cap - 1] >= ts[i] + length
  {
    var a, end := i + 1 - counts[i], i + 2 * cap - 1;
    var b := NextWindow(ts, counts, length, cap, a, i);
    if a == i {
      assert b == end || ts[b] <= ts[end];
    } else {
      var d := NextWindow(ts, counts, length, cap, b, b);
      assert ts[i] <= ts[b] && (d == end || ts[d] <= ts[end]);
    }
  }

  function CountIn(ts: seq<u64>, from: nat, until: nat): nat {
    if ts == [] then 0
    else CountIn(ts[..|ts| - 1], from, until) + (if from <= ts[|ts| - 1] < until then 1 else 0)
  }

  /** In a non-decreasing sequence the readings of an interval are consecutive. */
  lemma {:induction false} CountConsecutive(ts: seq<u64>, from: nat, until: nat) returns (i: nat)
    requires Monotone(ts)
    ensures i + CountIn(ts, from, until) <= |ts|
    ensures forall k :: i <= k < i + CountIn(ts, from, until) ==> from <= ts[k] < until
    ensures forall k :: i + CountIn(ts, from, until) <= k < |ts| ==>
        ts[k] >= until || (CountIn(ts, from, until) == 0 && ts[k] < from)
  {
    if ts == [] {
      i := 0;
    } else {
      var n := |ts| - 1;
      var j := CountConsecutive(ts[..n], from, until);
      var c := CountIn(ts[..n], from, until);
      if from <= ts[n] < until {
        if c == 0 { i := n; } else { i := j; assert j + c == n; }
      } else {
        i := j;
      }
    }
  }

  lemma WindowBound(ts: seq<u64>, length: nat, cap: nat, from: nat)
    requires Capped(ts, length, cap) && Monotone(ts) && length > 0 && 1 <= cap <= U32_MAX
    ensures CountIn(ts, from, from + length) <= 2 * cap - 1
  {
    var i := CountConsecutive(ts, from, from + length);
    var counts := Held(ts, length);
    WindowsChain(ts, length, cap);
    if i + 2 * cap - 1 < |ts| { TwoWindowsSpan(ts, counts, length, cap, i); }
  }

  /** No half-open hour sees more than 2 * max_per_hour - 1 proposals and no half-open day more than 2 * max_per_day -
      1, in any run, under any clock. */
  lemma RateBound(b: Budget, attempts: seq<Attempt>, from: nat)
    requires b.maxPerHour >= 1 && b.maxPerDay >= 1
    ensures CountIn(Shown(b, attempts), from, from + HOUR_MS) <= 2 * b.maxPerHour - 1
    ensures CountIn(Shown(b, attempts), from, from + DAY_MS) <= 2 * b.maxPerDay - 1
  {
    var ts := Shown(b, attempts);
    RunsAreAdmissible(b, attempts);
    AdmissibleIsCapped(b, ts);
    AdmissibleIsMonotone(b, ts);
    WindowBound(ts, HOUR_MS, b.maxPerHour, from);
    WindowBound(ts, DAY_MS, b.maxPerDay, from);
  }

  // --------------------------------------------------------------- when a proposal is allowed

  /** How many readings the current window holds at a new reading: none if its length has passed since it opened. */
  function Current(ts: seq<u64>, counts: seq<nat>, length: nat, now: u64): nat
    requires |counts| == |ts| && forall k :: 0 <= k < |ts| ==> 1 <= counts[k] <= k + 1
  {
    if ts == [] then 0
    else
      var last := |ts| - 1;
      if now < ts[last + 1 - counts[last]] + length then counts[last] else 0
  }

  lemma RolledCount(ts: seq<u64>, length: nat, cap: nat, now: u64)
    requires Capped(ts, length, cap) && length > 0 && cap <= U32_MAX
    ensures Chained(ts, Held(ts, length), length, cap)
    ensures Roll(Opened(ts, length), now, length).count == Current(ts, Held(ts, length), length, now)
  {
    WindowsChain(ts, length, cap);
    if ts != [] {
      var k := |ts| - 1;
      WindowHolds(ts, length, cap, k);
      assert ts[..k + 1] == ts;
    }
  }

  /** The first thing that stands against a proposal. */
  ghost predicate DecidedAs(r: Result<(), Denial>, g: Gates, b: Budget, ts: seq<u64>, hours: nat, days: nat, now: u64) {
    if !g.authorized then r == Err(Forbidden)
    else if g.muted then r == Err(Muted)
    else if g.paused then r == Err(Paused)
    else if g.quiet then r == Err(QuietHours)
    else if hours >= b.maxPerHour then r == Err(HourlyCapReached)
    else if days >= b.maxPerDay then r == Err(DailyCapReached)
    else if ts != [] && now < ts[|ts| - 1] + b.minIntervalMs then
      && r.Err? && r.error.TooSoon?
      && r.error.retryAfterMs == if now < ts[|ts| - 1] then b.minIntervalMs
                                 else ts[|ts| - 1] + b.minIntervalMs - now
    else r == Ok(())
  }

  /** After any run a proposal is allowed if and only if it is authorized, not muted, paused or in quiet hours, both
      current windows are below their caps, and the minimum interval has passed since the last one shown; otherwise the
      first of these that fails is the answer. */
  lemma DecidedExactly(b: Budget, attempts: seq<Attempt>, g: Gates, now: u64)
    requires b.maxPerHour >= 1 && b.maxPerDay >= 1
    ensures var ts := Shown(b, attempts);
      && Chained(ts, Held(ts, HOUR_MS), HOUR_MS, b.maxPerHour) && Chained(ts, Held(ts, DAY_MS), DAY_MS, b.maxPerDay)
      && DecidedAs(Decide(g, b, Run(b, attempts), now), g, b, ts, Current(ts, Held(ts, HOUR_MS), HOUR_MS, now),
                   Current(ts, Held(ts, DAY_MS), DAY_MS, now), now)
  {
    var ts := Shown(b, attempts);
    RunsAreAdmissible(b, attempts);
    AdmissibleIsCapped(b, ts);
    RecordedWindows(ts);
    RolledCount(ts, HOUR_MS, b.maxPerHour, now);
    RolledCount(ts, DAY_MS, b.maxPerDay, now);
  }

  // ----------------------------------------------------------------- the long-run bound

  /** Windows opened by the first readings. */
  function Openings(counts: seq<nat>): nat {
    if counts == [] then 0
    else Openings(counts[..|counts| - 1]) + (if counts[|counts| - 1] == 1 then 1 else 0)
  }

  /** The current window opened at least one length after the previous one, for every window so far. */
  lemma {:induction false} WindowsSpread(ts: seq<u64>, counts: seq<nat>, length: nat, cap: nat, k: nat)
    requires Chained(ts, counts, length, cap) && k < |ts|
    ensures var n := Openings(counts[..k + 1]);
      && n >= 1 && ts[k + 1 - counts[k]] >= ts[0] + Times(n - 1, length) && k + 1 <= Times(n - 1, cap) + counts[k]
  {
    assert counts[..k + 1][..k] == counts[..k];
    if k > 0 {
      WindowsSpread(ts, counts, length, cap, k - 1);
      assert Follows(ts, counts, length, k);
    }
  }

  lemma DivisionRemainder(span: nat, length: nat)
    requires length > 0
    ensures span < span / length * length + length
  {
  }

  lemma DivideBound(n: nat, length: nat, span: nat)
    requires length > 0 && Times(n, length) <= span
    ensures n <= span / length
  {
    var q := span / length;
    TimesIsProduct(q, length);
    DivisionRemainder(span, length);
    assert Times(q + 1, length) == Times(q, length) + length;
    if n > q { TimesMono(q + 1, n, length); }
  }

  lemma OpeningsBound(first: nat, since: nat, T: nat, n: nat, readings: nat, held: nat, length: nat, cap: nat)
    requires length > 0 && n >= 1 && first <= T && first + Times(n - 1, length) <= since <= T
    requires readings <= Times(n - 1, cap) + held && held <= cap
    ensures readings <= Times(1 + (T - first) / length, cap)
  {
    DivideBound(n - 1, length, T - first);
    TimesMono(n, 1 + (T - first) / length, cap);
  }

  /** Window openings are at least one length apart, so up to reading `T` at most `cap` per window can have been
      accepted. */
  lemma LongRunBound(ts: seq<u64>, length: nat, cap: nat, T: nat)
    requires Capped(ts, length, cap) && length > 0 && 1 <= cap <= U32_MAX
    requires ts != [] && Monotone(ts) && ts[|ts| - 1] <= T
    ensures ts[0] <= T && |ts| <= Times(1 + (T - ts[0]) / length, cap)
  {
    var counts := Held(ts, length);
    WindowsChain(ts, length, cap);
    ChainBound(ts, counts, length, cap, T);
  }

  lemma ChainBound(ts: seq<u64>, counts: seq<nat>, length: nat, cap: nat, T: nat)
    requires Chained(ts, counts, length, cap) && length > 0
    requires ts != [] && Monotone(ts) && ts[|ts| - 1] <= T
    ensures ts[0] <= T && |ts| <= Times(1 + (T - ts[0]) / length, cap)
  {
    var k := |ts| - 1;
    assert counts[..k + 1] == counts;
    WindowsSpread(ts, counts, length, cap, k);
    var n, since := Openings(counts), k + 1 - counts[k];
    assert since == k || ts[since] <= ts[k];
    OpeningsBound(ts[0], ts[since], T, n, |ts|, counts[k], length, cap);
  }

  lemma {:induction false} TimesMono(m: nat, n: nat, x: nat)
    requires m <= n
    ensures Times(m, x) <= Times(n, x)
  {
    if m < n { TimesMono(m, n - 1, x); }
  }

  /** Over a whole run, acceptances are bounded by the cap times the number of hours (days) begun since the first. */
  lemma LongRunRate(b: Budget, attempts: seq<Attempt>, T: nat)
    requires b.maxPerHour >= 1 && b.maxPerDay >= 1
    requires var ts := Shown(b, attempts); ts != [] && ts[|ts| - 1] <= T
    ensures Shown(b, attempts)[0] <= T
    ensures |Shown(b, attempts)| <= Times(1 + (T - Shown(b, attempts)[0]) / HOUR_MS, b.maxPerHour)
    ensures |Shown(b, attempts)| <= Times(1 + (T - Shown(b, attempts)[0]) / DAY_MS, b.maxPerDay)
  {
    var ts := Shown(b, attempts);
    RunsAreAdmissible(b, attempts);
    AdmissibleIsCapped(b, ts);
    AdmissibleIsMonotone(b, ts);
    LongRunBound(ts, HOUR_MS, b.maxPerHour, T);
    LongRunBound(ts, DAY_MS, b.maxPerDay, T);
  }

  // --------------------------------------------------------- when the bound is reached

  /** How many proposals a run shows in the hour from a reading on. */
  function HourCount(b: Budget, attempts: seq<Attempt>, from: nat): nat {
    CountIn(Shown(b, attempts), from, from + HOUR_MS)
  }

  /** Some run shows 2 * max_per_hour - 1 proposals within one half-open hour. */
  ghost predicate Reaches(b: Budget) {
    exists attempts, from :: HourCount(b, attempts, from) == 2 * b.maxPerHour - 1
  }

  /** One proposal is all that is asked for; or so many fit into an hour, and a day has room for a full hour and one
      more. */
  predicate Roomy(b: Budget) {
    && 1 <= b.maxPerHour && 1 <= b.maxPerDay
    && (b.maxPerHour == 1 || (b.maxPerHour < b.maxPerDay && Times(2 * b.maxPerHour - 2, b.minIntervalMs) < HOUR_MS))
  }

  lemma MonotoneAt(ts: seq<u64>, i: nat, j: nat)
    requires Monotone(ts) && i <= j < |ts|
    ensures ts[i] <= ts[j]
  {
  }

  /** If 2 * cap - 1 readings fall short of a window, the first of them is the second of its window, and the next
      window opened at the last possible reading. */
  lemma TightWindows(ts: seq<u64>, counts: seq<nat>, length: nat, cap: nat, i: nat)
    requires Chained(ts, counts, length, cap) && Monotone(ts) && 2 <= cap && i + 2 * cap - 2 < |ts|
    requires ts[i + 2 * cap - 2] < ts[i] + length
    ensures i >= 1 && ts[i] < ts[i - 1] + length <= ts[i + cap - 1]
  {
    var a, end := i + 1 - counts[i], i + 2 * cap - 2;
    var b := NextWindow(ts, counts, length, cap, a, i);
    MonotoneAt(ts, b, end);
    assert a < i;
    if b + cap <= end {
      var d := NextWindow(ts, counts, length, cap, b, b);
      MonotoneAt(ts, i, b);
      MonotoneAt(ts, d, end);
      assert false;
    }
    assert a == i - 1 && b == i + cap - 1;
    assert Follows(ts, counts, length, i);
  }

  /** What is used of the readings of a run: their steps and their windows. */
  ghost predicate Windowed(b: Budget, ts: seq<u64>, hours: seq<nat>, days: seq<nat>) {
    && Monotone(ts) && Stepped(ts, b.minIntervalMs)
    && Chained(ts, hours, HOUR_MS, b.maxPerHour) && Chained(ts, days, DAY_MS, b.maxPerDay)
  }

  lemma AdmissibleWindows(b: Budget, ts: seq<u64>)
    requires Admissible(b, ts)
    ensures Windowed(b, ts, Held(ts, HOUR_MS), Held(ts, DAY_MS))
  {
    AdmissibleSteps(b, ts);
    AdmissibleIsMonotone(b, ts);
    AdmissibleIsCapped(b, ts);
    WindowsChain(ts, HOUR_MS, b.maxPerHour);
    WindowsChain(ts, DAY_MS, b.maxPerDay);
  }

  lemma RunWindows(b: Budget, attempts: seq<Attempt>)
    ensures var ts := Shown(b, attempts); Windowed(b, ts, Held(ts, HOUR_MS), Held(ts, DAY_MS))
  {
    RunsAreAdmissible(b, attempts);
    AdmissibleWindows(b, Shown(b, attempts));
  }

  /** Readings from `i` on that come within an hour. */
  ghost predicate Crowded(ts: seq<u64>, i: nat, n: nat) {
    i + n < |ts| && ts[i + n] < ts[i] + HOUR_MS
  }

  lemma CountedCrowd(ts: seq<u64>, from: nat, n: nat) returns (i: nat)
    requires Monotone(ts) && CountIn(ts, from, from + HOUR_MS) == n + 1
    ensures Crowded(ts, i, n)
  {
    i := CountConsecutive(ts, from, from + HOUR_MS);
    assert from <= ts[i] && ts[i + n] < from + HOUR_MS;
  }

  /** Windows of a day with no more readings than those of an hour cannot keep up. */
  lemma DayLeavesRoom(ts: seq<u64>, hours: seq<nat>, days: seq<nat>, cap: nat, day: nat, i: nat)
    requires Chained(ts, hours, HOUR_MS, cap) && Chained(ts, days, DAY_MS, day) && Monotone(ts)
    requires 2 <= cap && Crowded(ts, i, 2 * cap - 2)
    ensures cap < day
  {
    var end := i + 2 * cap - 2;
    assert 1 <= days[i] <= day;
    TightWindows(ts, hours, HOUR_MS, cap, i);
    if day < cap {
      MonotoneAt(ts, i + 2 * day - 1, end);
      TwoWindowsSpan(ts, days, DAY_MS, day, i);
      assert false;
    }
    if day == cap {
      MonotoneAt(ts, i + cap - 1, end);
      TightWindows(ts, days, DAY_MS, day, i);
      assert false;
    }
  }

  lemma CrowdNeedsTime(ts: seq<u64>, e: nat, i: nat, n: nat)
    requires Stepped(ts, e) && Crowded(ts, i, n)
    ensures Times(n, e) < HOUR_MS
  {
    SteppedApart(ts, e, i, i + n);
  }

  lemma CrowdMeansRoomy(b: Budget, ts: seq<u64>, hours: seq<nat>, days: seq<nat>, i: nat)
    requires 2 <= b.maxPerHour && Windowed(b, ts, hours, days) && Crowded(ts, i, 2 * b.maxPerHour - 2)
    ensures Roomy(b)
  {
    DayLeavesRoom(ts, hours, days, b.maxPerHour, b.maxPerDay, i);
    CrowdNeedsTime(ts, b.minIntervalMs, i, 2 * b.maxPerHour - 2);
  }

  lemma CountMeansRoomy(b: Budget, ts: seq<u64>, hours: seq<nat>, days: seq<nat>, from: nat)
    requires Windowed(b, ts, hours, days) && CountIn(ts, from, from + HOUR_MS) == 2 * b.maxPerHour - 1
    ensures Roomy(b)
  {
    var i := CountedCrowd(ts, from, 2 * b.maxPerHour - 2);
    assert 1 <= days[i] <= b.maxPerDay;
    if 2 <= b.maxPerHour { CrowdMeansRoomy(b, ts, hours, days, i); }
  }

  lemma ReachedMeansRoomy(b: Budget, attempts: seq<Attempt>, from: nat)
    requires HourCount(b, attempts, from) == 2 * b.maxPerHour - 1
    ensures Roomy(b)
  {
    var ts := Shown(b, attempts);
    RunWindows(b, attempts);
    CountMeansRoomy(b, ts, Held(ts, HOUR_MS), Held(ts, DAY_MS), from);
  }

  // ------------------------------------------------------------------------ a run that reaches it

  /** Budgets for which more than one proposal is asked for. */
  predicate Wide(b: Budget) {
    Roomy(b) && b.maxPerHour >= 2
  }

  /** How long before the end of the day the last proposal of its last hour comes. */
  function Lead(b: Budget): nat {
    Max(b.minIntervalMs, 1)
  }

  /** The first proposal opens a day and the second its last hour; the rest of that hour comes at its end, and a full
      hour follows on the next day. */
  function Slot(b: Budget, k: nat): int {
    var cap: int, e: nat := b.maxPerHour, b.minIntervalMs;
    if k == 0 then 0
    else if k == 1 then DAY_MS - HOUR_MS
    else if k <= cap then DAY_MS - Lead(b) - Times(cap - k, e)
    else DAY_MS + Times(k - cap - 1, e)
  }

  lemma {:induction false} TimesSum(m: nat, n: nat, x: nat)
    ensures Times(m + n, x) == Times(m, x) + Times(n, x)
  {
    if n > 0 { TimesSum(m, n - 1, x); }
  }

  /** The intervals of both hours together, with the lead in place of one of them, stay within an hour. */
  lemma LeadFits(b: Budget)
    requires Wide(b)
    ensures var cap: int, e: nat := b.maxPerHour, b.minIntervalMs;
      Lead(b) + Times(cap - 2, e) + Times(cap - 1, e) < HOUR_MS && Lead(b) + Times(cap - 1, e) <= HOUR_MS
  {
    var cap: int, e: nat := b.maxPerHour, b.minIntervalMs;
    TimesSum(cap - 2, cap - 1, e);
    assert cap - 2 + (cap - 1) == 2 * cap - 3;
    assert Times(2 * cap - 2, e) == Times(2 * cap - 3, e) + e;
    if e == 0 {
      TimesIsProduct(cap - 2, e);
      TimesIsProduct(cap - 1, e);
    } else {
      TimesMono(cap - 1, 2 * cap - 3, e);
    }
  }

  lemma SlotPlaces(b: Budget, k: nat)
    requires Wide(b) && k <= 2 * b.maxPerHour
    ensures 0 <= Slot(b, k) < DAY_MS + HOUR_MS
    ensures 1 <= k <= b.maxPerHour ==> DAY_MS - HOUR_MS <= Slot(b, k) < DAY_MS
    ensures k > b.maxPerHour ==> DAY_MS <= Slot(b, k)
    ensures k >= 2 ==> Slot(b, 2) <= Slot(b, k) < Slot(b, 2) + HOUR_MS
  {
    var cap: int, e: nat := b.maxPerHour, b.minIntervalMs;
    LeadFits(b);
    if 2 <= k <= cap {
      TimesMono(cap - k, cap - 2, e);
      assert Times(cap - 1, e) == Times(cap - 2, e) + e;
    } else if k > cap {
      TimesMono(k - cap - 1, cap - 1, e);
    }
  }

  lemma SlotSpacing(b: Budget, k: nat)
    requires Wide(b) && 0 < k <= 2 * b.maxPerHour
    ensures Slot(b, k) >= Slot(b, k - 1) + b.minIntervalMs
  {
    var cap: int, e: nat := b.maxPerHour, b.minIntervalMs;
    LeadFits(b);
    assert Times(cap - 1, e) == Times(cap - 2, e) + e;
    if 3 <= k <= cap {
      assert Times(cap - k + 1, e) == Times(cap - k, e) + e;
    }
  }

  function SlotTime(b: Budget, k: nat): (t: u64)
    requires Wide(b) && k <= 2 * b.maxPerHour
    ensures t == Slot(b, k)
  {
    SlotPlaces(b, k);
    Slot(b, k)
  }

  function SlotAttempt(b: Budget, k: nat): Attempt
    requires Wide(b) && k <= 2 * b.maxPerHour
  {
    Attempt(SlotTime(b, k), Gates(true, false, false, false), true)
  }

  function Schedule(b: Budget, n: nat): seq<Attempt>
    requires Wide(b) && n <= 2 * b.maxPerHour + 1
  {
    if n == 0 then [] else Schedule(b, n - 1) + [SlotAttempt(b, n - 1)]
  }

  function Slots(b: Budget, n: nat): (ts: seq<u64>)
    requires Wide(b) && n <= 2 * b.maxPerHour + 1
    ensures |ts| == n
  {
    if n == 0 then [] else Slots(b, n - 1) + [SlotTime(b, n - 1)]
  }

  /** The counters after the first `n` slots. */
  function Filled(b: Budget, n: nat): Counters
    requires Wide(b) && n <= 2 * b.maxPerHour + 1
  {
    if n == 0 then INITIAL
    else
      var cap, last := b.maxPerHour, Some(SlotTime(b, n - 1));
      if n == 1 then Counters(Window(0, 1), Window(0, 1), last)
      else if n <= cap + 1 then Counters(Window(DAY_MS - HOUR_MS, n - 1), Window(0, n), last)
      else Counters(Window(DAY_MS, n - cap - 1), Window(DAY_MS, n - cap - 1), last)
  }

  lemma SlotAccepted(b: Budget, n: nat)
    requires Wide(b) && n <= 2 * b.maxPerHour
    ensures Check(b, Rolled(Filled(b, n), SlotTime(b, n)), SlotTime(b, n)).Ok?
    ensures Record(Filled(b, n), SlotTime(b, n)) == Filled(b, n + 1)
  {
    SlotPlaces(b, n);
    if n > 0 { SlotSpacing(b, n); }
  }

  lemma RunStep(b: Budget, front: seq<Attempt>, a: Attempt, c: Counters, ts: seq<u64>)
    requires Run(b, front) == c && Shown(b, front) == ts && Accepts(b, c, a)
    ensures Run(b, front + [a]) == Record(c, a.now) && Shown(b, front + [a]) == ts + [a.now]
  {
    assert (front + [a])[..|front|] == front;
  }

  /** The counters and the readings of a run. */
  ghost predicate LeadsTo(b: Budget, attempts: seq<Attempt>, c: Counters, ts: seq<u64>) {
    Run(b, attempts) == c && Shown(b, attempts) == ts
  }

  lemma SlotStep(b: Budget, n: nat, front: seq<Attempt>, ts: seq<u64>)
    requires Wide(b) && n <= 2 * b.maxPerHour && LeadsTo(b, front, Filled(b, n), ts)
    ensures LeadsTo(b, front + [SlotAttempt(b, n)], Filled(b, n + 1), ts + [SlotTime(b, n)])
  {
    SlotAccepted(b, n);
    RunStep(b, front, SlotAttempt(b, n), Filled(b, n), ts);
  }

  lemma ScheduleSnoc(b: Budget, n: nat)
    requires Wide(b) && 0 < n <= 2 * b.maxPerHour + 1
    ensures Schedule(b, n) == Schedule(b, n - 1) + [SlotAttempt(b, n - 1)]
    ensures Slots(b, n) == Slots(b, n - 1) + [SlotTime(b, n - 1)]
  {
  }

  lemma ScheduleEmpty(b: Budget)
    requires Wide(b)
    ensures LeadsTo(b, Schedule(b, 0), Filled(b, 0), Slots(b, 0))
  {
  }

  /** Every slot of the schedule is shown. */
  lemma {:induction false} ScheduleShown(b: Budget, n: nat)
    requires Wide(b) && n <= 2 * b.maxPerHour + 1
    ensures LeadsTo(b, Schedule(b, n), Filled(b, n), Slots(b, n))
  {
    if n == 0 {
      ScheduleEmpty(b);
    } else {
      ScheduleShown(b, n - 1);
      SlotStep(b, n - 1, Schedule(b, n - 1), Slots(b, n - 1));
      ScheduleSnoc(b, n);
    }
  }

  lemma CountSnoc(ts: seq<u64>, t: u64, from: nat, until: nat)
    ensures CountIn(ts + [t], from, until) == CountIn(ts, from, until) + (if from <= t < until then 1 else 0)
  {
    assert (ts + [t])[..|ts|] == ts;
  }

  lemma FirstTwoUncounted(b: Budget)
    requires Wide(b)
    ensures CountIn(Slots(b, 2), SlotTime(b, 2), SlotTime(b, 2) + HOUR_MS) == 0
  {
    var from := SlotTime(b, 2);
    FirstSlotsBefore(b);
    CountSnoc([], SlotTime(b, 0), from, from + HOUR_MS);
    assert Slots(b, 1) == [] + [SlotTime(b, 0)];
    CountSnoc(Slots(b, 1), SlotTime(b, 1), from, from + HOUR_MS);
    assert Slots(b, 2) == Slots(b, 1) + [SlotTime(b, 1)];
  }

  lemma OneMoreCounted(b: Budget, n: nat)
    requires Wide(b) && 2 < n <= 2 * b.maxPerHour + 1
    ensures CountIn(Slots(b, n), SlotTime(b, 2), SlotTime(b, 2) + HOUR_MS)
         == CountIn(Slots(b, n - 1), SlotTime(b, 2), SlotTime(b, 2) + HOUR_MS) + 1
  {
    SlotInHour(b, n - 1);
    ScheduleSnoc(b, n);
    CountedLast(Slots(b, n - 1), SlotTime(b, n - 1), SlotTime(b, 2), SlotTime(b, 2) + HOUR_MS);
  }

  lemma SlotInHour(b: Budget, k: nat)
    requires Wide(b) && 2 <= k <= 2 * b.maxPerHour
    ensures SlotTime(b, 2) <= SlotTime(b, k) < SlotTime(b, 2) + HOUR_MS
  {
    SlotPlaces(b, k);
  }

  lemma CountedLast(ts: seq<u64>, t: u64, from: nat, until: nat)
    requires from <= t < until
    ensures CountIn(ts + [t], from, until) == CountIn(ts, from, until) + 1
  {
    CountSnoc(ts, t, from, until);
  }

  lemma {:induction false} SlotsCounted(b: Budget, n: nat)
    requires Wide(b) && 2 <= n <= 2 * b.maxPerHour + 1
    ensures CountIn(Slots(b, n), SlotTime(b, 2), SlotTime(b, 2) + HOUR_MS) == n - 2
  {
    if n == 2 {
      FirstTwoUncounted(b);
    } else {
      SlotsCounted(b, n - 1);
      OneMoreCounted(b, n);
    }
  }

  lemma FirstSlotsBefore(b: Budget)
    requires Wide(b)
    ensures Slot(b, 0) < Slot(b, 2) && Slot(b, 1) < Slot(b, 2)
  {
    SlotPlaces(b, 2);
    LeadFits(b);
  }

  const ONE: Attempt := Attempt(0, Gates(true, false, false, false), true)

  lemma OneShown(b: Budget)
    requires Roomy(b)
    ensures HourCount(b, [ONE], 0) == 1
  {
    assert [ONE][..0] == [];
    assert Shown(b, [ONE]) == [0];
    assert [0][..0] == [];
  }

  lemma ScheduleReaches(b: Budget)
    requires Wide(b)
    ensures HourCount(b, Schedule(b, 2 * b.maxPerHour + 1), SlotTime(b, 2)) == 2 * b.maxPerHour - 1
  {
    var n := 2 * b.maxPerHour + 1;
    ScheduleShown(b, n);
    SlotsCounted(b, n);
    CountShown(b, Schedule(b, n), Slots(b, n), SlotTime(b, 2));
  }

  lemma CountShown(b: Budget, attempts: seq<Attempt>, ts: seq<u64>, from: nat)
    requires Shown(b, attempts) == ts
    ensures HourCount(b, attempts, from) == CountIn(ts, from, from + HOUR_MS)
  {
  }

  /** Tumbling windows are not sliding ones: some run shows 2 * max_per_hour - 1 proposals within one half-open hour if
      and only if that many fit into an hour at the minimum interval and the daily cap is above the hourly one, or one
      proposal is all that is asked for. */
  lemma BoundReachedExactly(b: Budget)
    ensures Reaches(b) <==> Roomy(b)
  {
    if Roomy(b) {
      if b.maxPerHour == 1 {
        OneShown(b);
      } else {
        ScheduleReaches(b);
      }
    }
    if Reaches(b) {
      var attempts, from :| HourCount(b, attempts, from) == 2 * b.maxPerHour - 1;
      ReachedMeansRoomy(b, attempts, from);
    }
  }

  const DEFAULT_BUDGET: Budget := Budget(3, 10, 600_000)

  /** Under the default budget of three per hour, five can fall into one hour. */
  lemma FiveInOneHour() returns (attempts: seq<Attempt>, from: nat)
    ensures HourCount(DEFAULT_BUDGET, attempts, from) == 5
  {
    TimesIsProduct(4, 600_000);
    BoundReachedExactly(DEFAULT_BUDGET);
    attempts, from :| HourCount(DEFAULT_BUDGET, attempts, from) == 2 * DEFAULT_BUDGET.maxPerHour - 1;
  }
}
