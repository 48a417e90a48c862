/**
 `ModelContextProfile`: reserves, validity, the fallback profile and the
 re-planned profile (crates/context-budget/src/profile.rs).
 */
module Profiles {
  import opened Machine

  datatype Profile = Profile(
    profileVersion: string,
    provider: string,
    model: string,
    maxContextTokens: u32,
    targetTokens: u32,
    softLimitTokens: u32,
    hardLimitTokens: u32,
    absoluteMvcMaxLimit: u32,
    toolSchemaReserve: u32,
    toolCallReserve: u32,
    finalAnswerReserve: u32,
    streamingReserve: u32,
    retryReserve: u32,
    lowPriorityCutoff: u8,
    offloadThresholdBytes: u64)

  datatype ProfileError = Ordering | TargetWithReserves | MvcWithReserves

  /** `reserves_total`: a chain of saturating additions. */
  function ReservesTotal(p: Profile): u32 {
    SatAdd(SatAdd(SatAdd(SatAdd(p.toolSchemaReserve, p.toolCallReserve), p.finalAnswerReserve),
                  p.streamingReserve), p.retryReserve)
  }

  /** The five reserves added without saturation. */
  function ExactReserves(p: Profile): nat {
    p.toolSchemaReserve + p.toolCallReserve + p.finalAnswerReserve + p.streamingReserve + p.retryReserve
  }

  function Validate(p: Profile): Result<(), ProfileError> {
    var reserves := ReservesTotal(p);
    if !(0 < p.targetTokens < p.softLimitTokens < p.hardLimitTokens <= p.maxContextTokens) then Err(Ordering)
    else if SatAdd(p.targetTokens, reserves) > p.softLimitTokens then Err(TargetWithReserves)
    else if SatAdd(p.absoluteMvcMaxLimit, reserves) > p.hardLimitTokens then Err(MvcWithReserves)
    else Ok(())
  }

  predicate IsValid(p: Profile) {
    Validate(p).Ok?
  }

  /** What the saturating checks of `validate` mean in exact arithmetic. */
  lemma ValidMeans(p: Profile)
    ensures IsValid(p) <==>
            && 0 < p.targetTokens
            && p.targetTokens + ExactReserves(p) <= p.softLimitTokens < p.hardLimitTokens <= p.maxContextTokens
            && (ExactReserves(p) == 0 ==> p.targetTokens < p.softLimitTokens)
            && (p.hardLimitTokens < U32_MAX ==> p.absoluteMvcMaxLimit + ExactReserves(p) <= p.hardLimitTokens)
    ensures IsValid(p) ==> ReservesTotal(p) == ExactReserves(p)
  {
  }

  /** `percent`, computed through u64 so that it cannot overflow. */
  function Percent(value: u32, percent: nat): (r: u32)
    requires percent <= 100
    ensures 100 * r <= value * percent < 100 * (r + 1)
  {
    PercentBound(value, percent);
    value * percent / 100
  }

  lemma PercentBound(value: nat, percent: nat)
    requires percent <= 100
    ensures value * percent / 100 <= value
    ensures 100 * (value * percent / 100) <= value * percent < 100 * (value * percent / 100 + 1)
  {
    assert value * percent <= value * 100;
  }

  function Clamp(n: int, lo: int, hi: int): int {
    if n < lo then lo else if n > hi then hi else n
  }

  /** `ModelContextProfile::fallback`. */
  function Fallback(provider: string, model: string, version: string, window: u32): Profile {
    var max: u32 := Max(window, 1);
    var hard: u32 := Max(Percent(max, 85), 1);
    var soft: u32 := Max(Percent(max, 75), 1);
    var toolCall: u32 := Max(1024, Percent(max, 1));
    var finalAnswer: u32 := Max(2048, Percent(max, 4));
    var toolSchema: u32 := Clamp(Percent(max, 8), 1024, 8192);
    var reserves: u32 := toolSchema + toolCall + finalAnswer + 512 + 1024;
    Profile(version, provider, model, max,
            Min(Percent(max, 60), SatSub(soft, reserves)), soft, hard,
            Min(Percent(max, 40), SatSub(hard, reserves)),
            toolSchema, toolCall, finalAnswer, 512, 1024, 30, 32 * 1024)
  }

  /** The smallest window whose fallback profile is usable. */
  const SMALLEST_WINDOW: u32 := 7511

  /** The room the soft limit leaves above the fallback reserves, by window size. */
  lemma FallbackRoom(max: u32, soft: u32, schema: u32, call: u32, answer: u32)
    requires 1 <= max
    requires soft == Max(Percent(max, 75), 1)
    requires schema == Clamp(Percent(max, 8), 1024, 8192)
    requires call == Max(1024, Percent(max, 1)) && answer == Max(2048, Percent(max, 4))
    ensures schema + call + answer + 1536 < soft <==> max >= SMALLEST_WINDOW
  {
    var m: int, p1: int, p4: int, p8: int, p75: int :=
      max, Percent(max, 1), Percent(max, 4), Percent(max, 8), Percent(max, 75);
    if max < SMALLEST_WINDOW {
      assert p75 <= 5632;
    } else if max <= 9100 {
      assert p75 >= 5633 && p8 <= 1024 && p1 <= 1024 && p4 <= 2048;
    } else {
      assert schema <= 1024 + p8 && call <= 1024 + p1 && answer <= 2048 + p4;
      assert 100 * (p1 + p4 + p8) <= 13 * m;
      assert 75 * m < 100 * (p75 + 1);
    }
  }

  lemma PercentGrows(value: u32, low: nat, high: nat)
    requires low < high <= 100 && value * (high - low) >= 100
    ensures Percent(value, low) < Percent(value, high)
  {
    assert value * low + value * (high - low) == value * high;
  }

  /** The fallback profile is valid from 7511 tokens up and for no smaller window. */
  lemma FallbackThreshold(provider: string, model: string, version: string, window: u32)
    ensures IsValid(Fallback(provider, model, version, window)) <==> window >= SMALLEST_WINDOW
  {
    var p := Fallback(provider, model, version, window);
    var max := p.maxContextTokens;
    FallbackRoom(max, p.softLimitTokens, p.toolSchemaReserve, p.toolCallReserve, p.finalAnswerReserve);
    ValidMeans(p);
    if window >= SMALLEST_WINDOW {
      PercentGrows(max, 75, 85);
      PercentGrows(max, 0, 60);
    }
  }

  /** The given percentage, rounded down. */
  predicate IsPercent(n: nat, value: nat, percent: nat) {
    100 * n <= percent * value < 100 * (n + 1)
  }

  /** The given percentage, raised to `least` and lowered to `most`. */
  predicate IsPercentWithin(n: nat, value: nat, percent: nat, least: nat, most: nat) {
    && least <= n <= most && (n == least || 100 * n <= percent * value)
    && (n == most || percent * value < 100 * (n + 1))
  }

  lemma PercentWithin(value: u32, percent: nat, least: nat, most: nat)
    requires percent <= 100 && least <= most
    ensures IsPercentWithin(Clamp(Percent(value, percent), least, most), value, percent, least, most)
  {
  }

  /** The window of an unknown model, at least one token. */
  function WindowOf(window: u32): u32 {
    if window == 0 then 1 else window
  }

  lemma FallbackNames(provider: string, model: string, version: string, window: u32)
    ensures var p := Fallback(provider, model, version, window);
      && p.provider == provider && p.model == model && p.profileVersion == version
      && p.maxContextTokens == WindowOf(window) && p.lowPriorityCutoff == 30 && p.offloadThresholdBytes == 32_768
  {
  }

  /** The reserves for an unknown model: 8, 1 and 4 percent of its window within fixed bounds, and two constants. */
  lemma FallbackReserves(provider: string, model: string, version: string, window: u32)
    ensures var p, max := Fallback(provider, model, version, window), WindowOf(window);
      && IsPercentWithin(p.toolSchemaReserve, max, 8, 1024, 8192)
      && IsPercentWithin(p.toolCallReserve, max, 1, 1024, U32_MAX)
      && IsPercentWithin(p.finalAnswerReserve, max, 4, 2048, U32_MAX)
      && p.streamingReserve == 512 && p.retryReserve == 1024
  {
    var max := WindowOf(window);
    PercentWithin(max, 8, 1024, 8192);
    PercentWithin(max, 1, 1024, U32_MAX);
    PercentWithin(max, 4, 2048, U32_MAX);
  }

  /** Its hard and soft limits: 85 and 75 percent. */
  lemma FallbackLimits(provider: string, model: string, version: string, window: u32)
    ensures var p, max := Fallback(provider, model, version, window), WindowOf(window);
      && IsPercentWithin(p.hardLimitTokens, max, 85, 1, U32_MAX)
      && IsPercentWithin(p.softLimitTokens, max, 75, 1, U32_MAX)
  {
    var max := WindowOf(window);
    PercentWithin(max, 85, 1, U32_MAX);
    PercentWithin(max, 75, 1, U32_MAX);
  }

  /** Its target and mandatory limit: up to 60 and 40 percent, as far as the reserves leave room. */
  lemma FallbackShares(provider: string, model: string, version: string, window: u32) returns (most: u32, least: u32)
    ensures var p, max := Fallback(provider, model, version, window), WindowOf(window);
      && IsPercent(most, max, 60) && IsRoomUnder(p.targetTokens, most, ExactReserves(p), p.softLimitTokens)
      && IsPercent(least, max, 40) && IsRoomUnder(p.absoluteMvcMaxLimit, least, ExactReserves(p), p.hardLimitTokens)
  {
    var p, max := Fallback(provider, model, version, window), WindowOf(window);
    most, least := Percent(max, 60), Percent(max, 40);
    RoomUnder(most, ExactReserves(p), p.softLimitTokens);
    RoomUnder(least, ExactReserves(p), p.hardLimitTokens);
  }

  /** `scaled_for_fallback_estimator`. */
  function ScaledForFallback(p: Profile): Profile {
    var hard := Percent(p.hardLimitTokens, 70);
    p.(profileVersion := p.profileVersion + "+fallback-estimator",
       hardLimitTokens := hard,
       softLimitTokens := Percent(p.softLimitTokens, 70),
       targetTokens := Percent(p.targetTokens, 70),
       absoluteMvcMaxLimit := Min(p.absoluteMvcMaxLimit, SatSub(hard, ReservesTotal(p))))
  }

  /** `replan`: the ceilings after a provider reported a context-length error. */
  function Replan(p: Profile, window: Option<u32>): Profile {
    var reduced := Percent(p.hardLimitTokens, 90);
    var hard: u32 := Max(if window.Some? then Min(window.value, reduced) else reduced, 1);
    var soft: u32 := Min(p.softLimitTokens, SatSub(hard, 1));
    var freed := p.(profileVersion := p.profileVersion + "+replan",
                    hardLimitTokens := hard, softLimitTokens := soft,
                    retryReserve := 0, streamingReserve := 0);
    var reserves := ReservesTotal(freed);
    freed.(targetTokens := Min(p.targetTokens, SatSub(soft, reserves)),
           absoluteMvcMaxLimit := Min(p.absoluteMvcMaxLimit, SatSub(hard, reserves)),
           maxContextTokens := if window.Some? then Min(p.maxContextTokens, window.value) else p.maxContextTokens)
  }

  /** From a valid profile, a re-plan only lowers ceilings, keeps what the answer and a tool call need,
      and is usable exactly when the new soft limit leaves room above the reserves that remain. */
  lemma ReplanProfile(p: Profile, window: Option<u32>)
    requires IsValid(p)
    ensures var q := Replan(p, window);
      && q.hardLimitTokens < p.hardLimitTokens && q.softLimitTokens <= p.softLimitTokens
      && q.targetTokens <= p.targetTokens && q.absoluteMvcMaxLimit <= p.absoluteMvcMaxLimit
      && q.maxContextTokens <= p.maxContextTokens
      && q.toolCallReserve == p.toolCallReserve && q.finalAnswerReserve == p.finalAnswerReserve
      && q.toolSchemaReserve == p.toolSchemaReserve && q.retryReserve == q.streamingReserve == 0
      && (IsValid(q) <==>
            && ExactReserves(q) < q.softLimitTokens
            && (ExactReserves(q) == 0 ==> p.targetTokens < q.softLimitTokens))
  {
    ValidMeans(p);
    ValidMeans(Replan(p, window));
  }

  /** The greatest number up to `most` that leaves room for `reserves` under `limit`, or none at all. */
  predicate IsRoomUnder(n: nat, most: nat, reserves: nat, limit: nat) {
    n <= most && (n == 0 || n + reserves <= limit) && (n == most || n + 1 + reserves > limit)
  }

  lemma RoomUnder(most: u32, reserves: nat, limit: u32)
    ensures IsRoomUnder(Min(most, SatSub(limit, Saturate(reserves))), most, reserves, limit)
  {
  }

  lemma ReservesSaturate(p: Profile)
    ensures ReservesTotal(p) == Saturate(ExactReserves(p))
  {
  }

  /** The greatest hard limit of at least 1 that a context-length error leaves: nine tenths of the old one and no more
      than the provider's window. */
  predicate IsReducedLimit(hard: nat, before: nat, window: Option<u32>) {
    && 1 <= hard && (hard == 1 || (10 * hard <= 9 * before && (window.Some? ==> hard <= window.value)))
    && (10 * (hard + 1) > 9 * before || (window.Some? && hard + 1 > window.value))
  }

  /** Everything a re-plan makes of a profile, limit by limit. */
  predicate IsReplanOf(q: Profile, p: Profile, window: Option<u32>) {
    && IsReducedLimit(q.hardLimitTokens, p.hardLimitTokens, window)
    && q.softLimitTokens <= p.softLimitTokens && q.softLimitTokens < q.hardLimitTokens
    && (q.softLimitTokens == p.softLimitTokens || q.softLimitTokens + 1 == q.hardLimitTokens)
    && IsRoomUnder(q.targetTokens, p.targetTokens, ExactReserves(q), q.softLimitTokens)
    && IsRoomUnder(q.absoluteMvcMaxLimit, p.absoluteMvcMaxLimit, ExactReserves(q), q.hardLimitTokens)
    && q.maxContextTokens <= p.maxContextTokens && (window.Some? ==> q.maxContextTokens <= window.value)
    && (q.maxContextTokens == p.maxContextTokens || window == Some(q.maxContextTokens))
    && q.retryReserve == q.streamingReserve == 0 && q.profileVersion == p.profileVersion + "+replan"
    && p == q.(profileVersion := p.profileVersion, maxContextTokens := p.maxContextTokens,
               targetTokens := p.targetTokens, softLimitTokens := p.softLimitTokens,
               hardLimitTokens := p.hardLimitTokens, absoluteMvcMaxLimit := p.absoluteMvcMaxLimit,
               streamingReserve := p.streamingReserve, retryReserve := p.retryReserve)
  }

  lemma ReducedLimit(before: u32, window: Option<u32>)
    ensures var reduced := Percent(before, 90);
      IsReducedLimit(Max(if window.Some? then Min(window.value, reduced) else reduced, 1), before, window)
  {
  }

  /** A re-plan after a context-length error takes every limit to the greatest value the provider's window, the step of
      a tenth and the remaining reserves allow, and changes nothing else. */
  lemma ReplanExactly(p: Profile, window: Option<u32>)
    ensures IsReplanOf(Replan(p, window), p, window)
  {
    var q := Replan(p, window);
    ReducedLimit(p.hardLimitTokens, window);
    ReservesSaturate(q);
    RoomUnder(p.targetTokens, ExactReserves(q), q.softLimitTokens);
    RoomUnder(p.absoluteMvcMaxLimit, ExactReserves(q), q.hardLimitTokens);
  }

  /** Seven tenths, rounded down. */
  predicate IsSevenTenths(n: nat, before: nat) {
    10 * n <= 7 * before < 10 * (n + 1)
  }

  /** With the fallback estimator the three limits shrink to seven tenths, the mandatory limit to what then fits beside
      the reserves, and nothing else changes. */
  lemma ScaledExactly(p: Profile)
    ensures var q := ScaledForFallback(p);
      && IsSevenTenths(q.hardLimitTokens, p.hardLimitTokens) && IsSevenTenths(q.softLimitTokens, p.softLimitTokens)
      && IsSevenTenths(q.targetTokens, p.targetTokens)
      && IsRoomUnder(q.absoluteMvcMaxLimit, p.absoluteMvcMaxLimit, ExactReserves(p), q.hardLimitTokens)
      && q.profileVersion == p.profileVersion + "+fallback-estimator"
      && p == q.(profileVersion := p.profileVersion, targetTokens := p.targetTokens,
                 softLimitTokens := p.softLimitTokens, hardLimitTokens := p.hardLimitTokens,
                 absoluteMvcMaxLimit := p.absoluteMvcMaxLimit)
  {
    var q := ScaledForFallback(p);
    ReservesSaturate(p);
    RoomUnder(p.absoluteMvcMaxLimit, ExactReserves(p), q.hardLimitTokens);
  }
}
