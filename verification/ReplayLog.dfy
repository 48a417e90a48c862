/**
 `BoundedReplayLog`: a sliding window of contiguous events, and a client that catches up with it by
 cursor (crates/desktop-ipc/src/lib.rs).
 */
module ReplayLog {
  import opened Machine
  import Order

  const MAX_REPLAY_EVENTS: nat := 512
  const MAX_FRAME_BYTES: nat := 4 * 1024 * 1024
  const MAX_REPLAY_EVENT_BYTES: nat := MAX_FRAME_BYTES - 1024
  const MAX_REPLAY_LOG_BYTES: nat := 16 * 1024 * 1024

  datatype ReplayEvent = ReplayEvent(sequenceId: u64, payload: seq<u8>)

  datatype ReplayError = InvalidCapacity | EventTooLarge | LogTooLarge | NonContiguous | RequestTooLarge

  datatype ReplayResult =
    | Events(events: seq<ReplayEvent>)
    | Gap(requestedAfter: u64, earliest: u64, latest: u64)

  // -------------------------------------------------------------- the log as a value

  datatype Log = Log(maxEvents: nat, events: seq<ReplayEvent>, bytes: nat)

  function PayloadBytes(events: seq<ReplayEvent>): nat {
    if events == [] then 0 else PayloadBytes(events[..|events| - 1]) + |events[|events| - 1].payload|
  }

  /** Why an event is not accepted, if it is not. */
  function Objection(log: Log, e: ReplayEvent): Option<ReplayError> {
    if |e.payload| > MAX_REPLAY_EVENT_BYTES then Some(EventTooLarge)
    else if log.events != [] && e.sequenceId != SatAdd64(log.events[|log.events| - 1].sequenceId, 1)
        then Some(NonContiguous)
    else if log.bytes + |e.payload| > MAX_REPLAY_LOG_BYTES then Some(LogTooLarge)
    else None
  }

  /** The last `n` elements. */
  function Last<T>(s: seq<T>, n: nat): seq<T> {
    if |s| <= n then s else s[|s| - n..]
  }

  /** The answer to an append. */
  function Verdict(log: Log, e: ReplayEvent): Result<(), ReplayError> {
    var objection := Objection(log, e);
    if objection.None? then Ok(()) else Err(objection.value)
  }

  function Append(log: Log, e: ReplayEvent): Log {
    if Objection(log, e).Some? then log
    else
      var kept := Last(log.events + [e], log.maxEvents);
      Log(log.maxEvents, kept, PayloadBytes(kept))
  }

  function After(events: seq<ReplayEvent>, cursor: u64): seq<ReplayEvent> {
    if events == [] then []
    else (if events[0].sequenceId > cursor then [events[0]] else []) + After(events[1..], cursor)
  }

  function First<T>(s: seq<T>, n: nat): seq<T> {
    if |s| <= n then s else s[..n]
  }

  /** `replay_after`. */
  function Replay(log: Log, cursor: u64, maxEvents: u32): Result<ReplayResult, ReplayError> {
    var requested := if maxEvents == 0 then log.maxEvents else maxEvents;
    if requested > MAX_REPLAY_EVENTS then Err(RequestTooLarge)
    else if log.events == [] then Ok(Events([]))
    else if SatAdd64(cursor, 1) < log.events[0].sequenceId then
      Ok(Gap(cursor, log.events[0].sequenceId, log.events[|log.events| - 1].sequenceId))
    else Ok(Events(First(After(log.events, cursor), requested)))
  }

  function Empty(maxEvents: nat): Log {
    Log(maxEvents, [], 0)
  }

  /** `from_events`: the log of a sequence of events, or the first refusal. */
  function FromEvents(log: Log, events: seq<ReplayEvent>): Result<Log, ReplayError>
    decreases |events|
  {
    if events == [] then Ok(log)
    else if Objection(log, events[0]).Some? then Err(Objection(log, events[0]).value)
    else FromEvents(Append(log, events[0]), events[1..])
  }

  /** An event is accepted exactly if it is small enough, follows the last one held, and the log stays within its size;
      otherwise the first of these that fails is the answer. */
  lemma AppendedExactly(log: Log, e: ReplayEvent)
    ensures var r := Verdict(log, e);
      if |e.payload| > 4_193_280 then r == Err(EventTooLarge)
      else if log.events != [] && e.sequenceId != (if log.events[|log.events| - 1].sequenceId == U64_MAX then U64_MAX
                                                   else log.events[|log.events| - 1].sequenceId + 1)
      then r == Err(NonContiguous)
      else if log.bytes + |e.payload| > 16_777_216 then r == Err(LogTooLarge)
      else r == Ok(())
  {
  }

  /** A request is refused exactly if it asks for more than 512 events; zero asks for the capacity. */
  lemma RequestRefusedExactly(log: Log, cursor: u64, max: u32)
    requires log.maxEvents <= MAX_REPLAY_EVENTS
    ensures Replay(log, cursor, max).Err? <==> max > 512
    ensures max > 512 ==> Replay(log, cursor, max) == Err(RequestTooLarge)
  {
  }

  // ---------------------------------------------------------------- the mutable log

  class BoundedReplayLog {
    const maxEvents: nat
    var events: seq<ReplayEvent>
    var bytes: nat

    ghost predicate Valid()
      reads this
    {
      1 <= maxEvents <= MAX_REPLAY_EVENTS && |events| <= maxEvents && bytes == PayloadBytes(events)
    }

    ghost function Value(): Log
      reads this
    {
      Log(maxEvents, events, bytes)
    }

    constructor (maxEvents: nat)
      requires 1 <= maxEvents <= MAX_REPLAY_EVENTS
      ensures Valid() && Value() == Empty(maxEvents)
    {
      this.maxEvents, events, bytes := maxEvents, [], 0;
    }

    /** A refused event changes nothing; an accepted one pushes out the oldest beyond the capacity. */
    method AppendEvent(e: ReplayEvent) returns (r: Result<(), ReplayError>)
      requires Valid()
      modifies this
      ensures Valid()
      ensures Value() == Append(old(Value()), e)
      ensures r == Verdict(old(Value()), e)
    {
      if |e.payload| > MAX_REPLAY_EVENT_BYTES { return Err(EventTooLarge); }
      if |events| > 0 && e.sequenceId != SatAdd64(events[|events| - 1].sequenceId, 1) { return Err(NonContiguous); }
      if bytes + |e.payload| > MAX_REPLAY_LOG_BYTES { return Err(LogTooLarge); }
      Push(e);
      return Ok(());
    }

    method Push(e: ReplayEvent)
      requires Valid() && Objection(Value(), e).None?
      modifies this
      ensures Valid() && Value() == Append(old(Value()), e)
    {
      PayloadSnoc(events, e);
      LastBounded(events + [e], maxEvents);
      events, bytes := events + [e], bytes + |e.payload|;
      Evict();
    }

    /** Pushes out the oldest events beyond the capacity. */
    method Evict()
      requires bytes == PayloadBytes(events)
      modifies this
      ensures events == Last(old(events), maxEvents) && bytes == PayloadBytes(events)
    {
      ghost var all := events;
      while |events| > maxEvents
        invariant bytes == PayloadBytes(events)
        invariant Last(events, maxEvents) == Last(all, maxEvents)
      {
        HeadPayload(events);
        LastTail(events, maxEvents);
        bytes := bytes - |events[0].payload|;
        events := events[1..];
      }
    }

    method ReplayAfter(cursor: u64, max: u32) returns (r: Result<ReplayResult, ReplayError>)
      requires Valid()
      ensures r == Replay(Value(), cursor, max)
    {
      var requested := if max == 0 then maxEvents else max;
      if requested > MAX_REPLAY_EVENTS { return Err(RequestTooLarge); }
      if |events| == 0 { return Ok(Events([])); }
      if SatAdd64(cursor, 1) < events[0].sequenceId {
        return Ok(Gap(cursor, events[0].sequenceId, events[|events| - 1].sequenceId));
      }
      var taken := TakeAfter(events, cursor, requested);
      return Ok(Events(taken));
    }
  }

  lemma PayloadSnoc(events: seq<ReplayEvent>, e: ReplayEvent)
    ensures PayloadBytes(events + [e]) == PayloadBytes(events) + |e.payload|
  {
    assert (events + [e])[..|events|] == events;
  }

  lemma LastBounded<T>(s: seq<T>, n: nat)
    ensures |Last(s, n)| <= n
  {
  }

  lemma LastTail(events: seq<ReplayEvent>, n: nat)
    requires |events| > n
    ensures Last(events[1..], n) == Last(events, n)
  {
  }

  /** `new`: a capacity outside 1..512 is refused. */
  method NewLog(maxEvents: nat) returns (r: Result<BoundedReplayLog, ReplayError>)
    ensures r.Ok? <==> 1 <= maxEvents <= MAX_REPLAY_EVENTS
    ensures r.Err? ==> r.error == InvalidCapacity
    ensures r.Ok? ==> fresh(r.value) && r.value.Valid() && r.value.Value() == Empty(maxEvents)
  {
    if !(1 <= maxEvents <= MAX_REPLAY_EVENTS) { return Err(InvalidCapacity); }
    var log := new BoundedReplayLog(maxEvents);
    return Ok(log);
  }

  /** `from_events`: appends one by one and stops at the first refusal. */
  method LoadLog(maxEvents: nat, events: seq<ReplayEvent>) returns (r: Result<BoundedReplayLog, ReplayError>)
    ensures 1 <= maxEvents <= MAX_REPLAY_EVENTS ==>
              match FromEvents(Empty(maxEvents), events)
              case Ok(log) => r.Ok? && fresh(r.value) && r.value.Valid() && r.value.Value() == log
              case Err(error) => r == Err(error)
    ensures !(1 <= maxEvents <= MAX_REPLAY_EVENTS) ==> r == Err(InvalidCapacity)
  {
    r := NewLog(maxEvents);
    if r.Err? { return; }
    var log := r.value;
    for i := 0 to |events|
      invariant fresh(log) && log.Valid() && r == Ok(log)
      invariant FromEvents(log.Value(), events[i..]) == FromEvents(Empty(maxEvents), events)
    {
      assert events[i..][1..] == events[i + 1..];
      var appended := log.AppendEvent(events[i]);
      if appended.Err? { return Err(appended.error); }
    }
  }

  lemma AfterStep(events: seq<ReplayEvent>, i: nat, cursor: u64, taken: seq<ReplayEvent>)
    requires i < |events|
    ensures taken + After(events[i..], cursor)
         == (if events[i].sequenceId > cursor then taken + [events[i]] else taken) + After(events[i + 1..], cursor)
  {
    assert events[i..][1..] == events[i + 1..];
    if events[i].sequenceId > cursor {
      Order.Assoc(taken, [events[i]], After(events[i + 1..], cursor));
    } else {
      assert After(events[i..], cursor) == After(events[i + 1..], cursor);
    }
  }

  /** `filter(..).take(n)` as one loop. */
  method TakeAfter(events: seq<ReplayEvent>, cursor: u64, n: nat) returns (taken: seq<ReplayEvent>)
    ensures taken == First(After(events, cursor), n)
  {
    taken := [];
    var i := 0;
    while i < |events| && |taken| < n
      invariant 0 <= i <= |events| && |taken| <= n
      invariant taken + After(events[i..], cursor) == After(events, cursor)
    {
      AfterStep(events, i, cursor, taken);
      if events[i].sequenceId > cursor { taken := taken + [events[i]]; }
      i := i + 1;
    }
    assert i == |events| ==> After(events[i..], cursor) == [];
  }

  lemma {:induction false} HeadPayload(events: seq<ReplayEvent>)
    requires events != []
    ensures PayloadBytes(events) == |events[0].payload| + PayloadBytes(events[1..])
  {
    var n := |events| - 1;
    if n > 0 {
      HeadPayload(events[..n]);
      assert events[..n][1..] == events[1..][..n - 1];
    }
  }

  lemma {:induction false} DropPayload(events: seq<ReplayEvent>, n: nat)
    requires n <= |events|
    ensures PayloadBytes(events[n..]) <= PayloadBytes(events)
  {
    if n > 0 {
      HeadPayload(events);
      DropPayload(events[1..], n - 1);
      assert events[1..][n - 1..] == events[n..];
    }
  }

  // ----------------------------------------------- refinement of an unbounded history

  /** The events accepted so far, and the log. */
  datatype Server = Server(history: seq<ReplayEvent>, log: Log)

  function Offer(s: Server, e: ReplayEvent): Server {
    if Objection(s.log, e).Some? then s else Server(s.history + [e], Append(s.log, e))
  }

  function OfferAll(s: Server, offers: seq<ReplayEvent>): Server {
    if offers == [] then s else Offer(OfferAll(s, offers[..|offers| - 1]), offers[|offers| - 1])
  }

  ghost predicate Contiguous(events: seq<ReplayEvent>) {
    forall i :: 0 < i < |events| ==> events[i].sequenceId == SatAdd64(events[i - 1].sequenceId, 1)
  }

  /** The log is exactly the newest part of the history. */
  ghost predicate Windows(s: Server) {
    && 1 <= s.log.maxEvents <= MAX_REPLAY_EVENTS
    && s.log.events == Last(s.history, s.log.maxEvents)
    && s.log.bytes == PayloadBytes(s.log.events) <= MAX_REPLAY_LOG_BYTES
    && Contiguous(s.history) && Bounded(s.history)
  }

  ghost predicate Bounded(events: seq<ReplayEvent>) {
    forall i :: 0 <= i < |events| ==> |events[i].payload| <= MAX_REPLAY_EVENT_BYTES
  }

  lemma LastOfLast(s: seq<ReplayEvent>, e: ReplayEvent, n: nat)
    requires n >= 1
    ensures Last(Last(s, n) + [e], n) == Last(s + [e], n)
  {
  }

  lemma EvictionShrinks(events: seq<ReplayEvent>, e: ReplayEvent, n: nat)
    ensures PayloadBytes(Last(events + [e], n)) <= PayloadBytes(events) + |e.payload|
  {
    var all := events + [e];
    assert all[..|all| - 1] == events;
    if |all| > n { DropPayload(all, |all| - n); }
  }

  lemma ContiguousExtends(h: seq<ReplayEvent>, e: ReplayEvent)
    requires Contiguous(h) && (h != [] ==> e.sequenceId == SatAdd64(h[|h| - 1].sequenceId, 1))
    requires Bounded(h) && |e.payload| <= MAX_REPLAY_EVENT_BYTES
    ensures Contiguous(h + [e]) && Bounded(h + [e])
  {
  }

  lemma AppendKeeps(log: Log, e: ReplayEvent, h: seq<ReplayEvent>)
    requires 1 <= log.maxEvents && log.events == Last(h, log.maxEvents) && log.bytes == PayloadBytes(log.events)
    requires Objection(log, e).None?
    ensures var after := Append(log, e);
      && after.maxEvents == log.maxEvents && after.events == Last(h + [e], log.maxEvents)
      && after.bytes == PayloadBytes(after.events) <= MAX_REPLAY_LOG_BYTES
  {
    LastOfLast(h, e, log.maxEvents);
    EvictionShrinks(log.events, e, log.maxEvents);
  }

  lemma SameEnd(h: seq<ReplayEvent>, n: nat)
    requires n >= 1
    ensures h != [] ==> Last(h, n) != [] && Last(h, n)[|Last(h, n)| - 1] == h[|h| - 1]
    ensures h == [] ==> Last(h, n) == []
  {
  }

  lemma OfferKeepsWindow(s: Server, e: ReplayEvent)
    requires Windows(s)
    ensures Windows(Offer(s, e))
  {
    if Objection(s.log, e).None? {
      AppendKeeps(s.log, e, s.history);
      SameEnd(s.history, s.log.maxEvents);
      ContiguousExtends(s.history, e);
    }
  }

  /** After any run of appends the log holds exactly the last accepted events, up to its capacity: they are contiguous
      and their payloads add up to the recorded bytes. */
  lemma {:induction false} LogRefinesHistory(maxEvents: nat, offers: seq<ReplayEvent>)
    requires 1 <= maxEvents <= MAX_REPLAY_EVENTS
    ensures Windows(OfferAll(Server([], Empty(maxEvents)), offers))
  {
    if offers != [] {
      LogRefinesHistory(maxEvents, offers[..|offers| - 1]);
      OfferKeepsWindow(OfferAll(Server([], Empty(maxEvents)), offers[..|offers| - 1]), offers[|offers| - 1]);
    }
  }

  lemma {:induction false} RebuildFrom(log: Log, built: Log, k: nat)
    requires 1 <= log.maxEvents <= MAX_REPLAY_EVENTS && |log.events| <= log.maxEvents
    requires log.bytes == PayloadBytes(log.events) <= MAX_REPLAY_LOG_BYTES && Contiguous(log.events)
    requires Bounded(log.events)
    requires k <= |log.events| && built == Log(log.maxEvents, log.events[..k], PayloadBytes(log.events[..k]))
    ensures FromEvents(built, log.events[k..]) == Ok(log)
    decreases |log.events| - k
  {
    if k == |log.events| {
      assert log.events[..k] == log.events;
    } else {
      var e := log.events[k];
      assert log.events[..k + 1] == log.events[..k] + [e];
      assert log.events[..k + 1][..k] == log.events[..k];
      PrefixPayload(log.events, k + 1);
      assert log.events[k..][1..] == log.events[k + 1..];
      RebuildFrom(log, Log(log.maxEvents, log.events[..k + 1], PayloadBytes(log.events[..k + 1])), k + 1);
    }
  }

  lemma {:induction false} PrefixPayload(events: seq<ReplayEvent>, k: nat)
    requires k <= |events|
    ensures PayloadBytes(events[..k]) <= PayloadBytes(events)
    decreases |events|
  {
    if k < |events| {
      PrefixPayload(events[..|events| - 1], k);
      assert events[..|events| - 1][..k] == events[..k];
    } else {
      assert events[..k] == events;
    }
  }

  lemma SuffixKeeps(h: seq<ReplayEvent>, n: nat)
    requires Contiguous(h) && Bounded(h)
    ensures Contiguous(Last(h, n)) && Bounded(Last(h, n))
  {
    var t := Last(h, n);
    var d := |h| - |t|;
    forall i | 0 < i < |t| ensures t[i].sequenceId == SatAdd64(t[i - 1].sequenceId, 1) {
      assert t[i] == h[d + i] && t[i - 1] == h[d + i - 1];
    }
  }

  /** Exporting the events of any reachable log and reading them back gives the same log. */
  lemma ExportRebuilds(maxEvents: nat, offers: seq<ReplayEvent>)
    requires 1 <= maxEvents <= MAX_REPLAY_EVENTS
    ensures var log := OfferAll(Server([], Empty(maxEvents)), offers).log;
      FromEvents(Empty(maxEvents), log.events) == Ok(log)
  {
    LogRefinesHistory(maxEvents, offers);
    var s := OfferAll(Server([], Empty(maxEvents)), offers);
    MaxEventsKept(Server([], Empty(maxEvents)), offers);
    SuffixKeeps(s.history, maxEvents);
    RebuildFrom(s.log, Empty(maxEvents), 0);
    assert s.log.events[0..] == s.log.events;
  }

  lemma {:induction false} MaxEventsKept(s: Server, offers: seq<ReplayEvent>)
    ensures OfferAll(s, offers).log.maxEvents == s.log.maxEvents
  {
    if offers != [] { MaxEventsKept(s, offers[..|offers| - 1]); }
  }

  // ----------------------------------------------------------- catching up by cursor

  /** A client: what it has received and the last sequence number it knows. */
  datatype Client = Client(cursor: u64, received: seq<ReplayEvent>, gapped: bool)

  datatype System = System(server: Server, client: Client)

  datatype Step = Publish(event: ReplayEvent) | CatchUp(max: u32)

  /** The cursor follows the events as they are read: `sequence = max(sequence, event.sequence_id)`. */
  function Advance(cursor: u64, events: seq<ReplayEvent>): u64 {
    if events == [] then cursor else Max(Advance(cursor, events[..|events| - 1]), events[|events| - 1].sequenceId)
  }

  function Take(sys: System, step: Step): System {
    match step
    case Publish(e) => sys.(server := Offer(sys.server, e))
    case CatchUp(max) =>
      match Replay(sys.server.log, sys.client.cursor, max)
      case Err(_) => sys
      case Ok(Gap(_, _, _)) => sys.(client := sys.client.(gapped := true))
      case Ok(Events(events)) =>
        sys.(client := sys.client.(cursor := Advance(sys.client.cursor, events),
                                   received := sys.client.received + events))
  }

  function Run(sys: System, steps: seq<Step>): System {
    if steps == [] then sys else Take(Run(sys, steps[..|steps| - 1]), steps[|steps| - 1])
  }

  /** No event was accepted after the largest sequence number, where counting stops. */
  ghost predicate Counts(events: seq<ReplayEvent>) {
    forall i :: 0 <= i < |events| - 1 ==> events[i].sequenceId < U64_MAX
  }

  /** What the client has is the history after its starting cursor, up to where it has read; what it lacks is the
      rest. */
  ghost predicate HasRead(start: u64, h: seq<ReplayEvent>, c: Client) {
    && c.received + After(h, c.cursor) == After(h, start)
    && (c.cursor == start || (h != [] && c.cursor <= h[|h| - 1].sequenceId))
  }

  ghost predicate InStep(start: u64, sys: System) {
    && Windows(sys.server) && start <= sys.client.cursor
    && (Counts(sys.server.history) && !sys.client.gapped ==> HasRead(start, sys.server.history, sys.client))
  }

  lemma {:induction false} AfterConcat(a: seq<ReplayEvent>, b: seq<ReplayEvent>, cursor: u64)
    ensures After(a + b, cursor) == After(a, cursor) + After(b, cursor)
  {
    if a == [] {
      assert a + b == b;
    } else {
      AfterConcat(a[1..], b, cursor);
      assert (a + b)[0] == a[0] && (a + b)[1..] == a[1..] + b;
      Order.Assoc(if a[0].sequenceId > cursor then [a[0]] else [], After(a[1..], cursor), After(b, cursor));
    }
  }

  ghost predicate Increasing(events: seq<ReplayEvent>) {
    forall i, j :: 0 <= i < j < |events| ==> events[i].sequenceId < events[j].sequenceId
  }

  lemma {:induction false} ContiguousIncreases(events: seq<ReplayEvent>)
    requires Contiguous(events) && Counts(events)
    ensures Increasing(events)
    ensures forall i :: 0 <= i < |events| ==> events[i].sequenceId == events[0].sequenceId + i
  {
    if |events| > 1 {
      var front := events[..|events| - 1];
      assert Contiguous(front) && Counts(front);
      ContiguousIncreases(front);
      assert events[|events| - 1].sequenceId == front[|front| - 1].sequenceId + 1;
    }
  }

  lemma {:induction false} AllAfter(events: seq<ReplayEvent>, cursor: u64)
    requires forall i :: 0 <= i < |events| ==> events[i].sequenceId > cursor
    ensures After(events, cursor) == events
  {
    if events != [] { AllAfter(events[1..], cursor); }
  }

  /** Everything before `k` is at or before the cursor and everything from `k` on is after it. */
  ghost predicate SplitsAt(events: seq<ReplayEvent>, cursor: u64, k: nat) {
    && k <= |events|
    && (forall i :: 0 <= i < k ==> events[i].sequenceId <= cursor)
    && (forall i :: k <= i < |events| ==> events[i].sequenceId > cursor)
  }

  lemma SplitsNext(events: seq<ReplayEvent>, cursor: u64, k: nat)
    requires events != [] && events[0].sequenceId <= cursor && SplitsAt(events[1..], cursor, k)
    ensures SplitsAt(events, cursor, k + 1)
  {
    forall i | 0 < i < |events| ensures events[i] == events[1..][i - 1] {}
  }

  lemma {:induction false} IncreasingSplits(events: seq<ReplayEvent>, cursor: u64) returns (k: nat)
    requires Increasing(events)
    ensures SplitsAt(events, cursor, k)
  {
    if events == [] || events[0].sequenceId > cursor {
      k := 0;
    } else {
      var j := IncreasingSplits(events[1..], cursor);
      SplitsNext(events, cursor, j);
      k := j + 1;
    }
  }

  lemma AfterSplit(events: seq<ReplayEvent>, cursor: u64, k: nat)
    requires SplitsAt(events, cursor, k)
    ensures After(events, cursor) == events[k..]
  {
    assert events == events[..k] + events[k..];
    AfterConcat(events[..k], events[k..], cursor);
    NothingAfter(events[..k], cursor);
    AllAfter(events[k..], cursor);
  }

  /** In an increasing sequence the events after a cursor are a suffix. */
  lemma AfterIsSuffix(events: seq<ReplayEvent>, cursor: u64) returns (k: nat)
    requires Increasing(events)
    ensures SplitsAt(events, cursor, k) && After(events, cursor) == events[k..]
  {
    k := IncreasingSplits(events, cursor);
    AfterSplit(events, cursor, k);
  }

  lemma {:induction false} AdvanceReaches(cursor: u64, events: seq<ReplayEvent>)
    requires Increasing(events) && forall i :: 0 <= i < |events| ==> events[i].sequenceId > cursor
    ensures Advance(cursor, events) == if events == [] then cursor else events[|events| - 1].sequenceId
  {
    if events != [] { AdvanceReaches(cursor, events[..|events| - 1]); }
  }

  lemma {:induction false} AdvanceGrows(cursor: u64, events: seq<ReplayEvent>)
    ensures Advance(cursor, events) >= cursor
  {
    if events != [] { AdvanceGrows(cursor, events[..|events| - 1]); }
  }

  /** The window is what is left of the history after the evicted events. */
  lemma WindowSplits(h: seq<ReplayEvent>, n: nat)
    requires n >= 1
    ensures var d := |h| - |Last(h, n)|;
      d >= 0 && h == h[..d] + Last(h, n) && (h != [] ==> d < |h| && Last(h, n) != [] && Last(h, n)[0] == h[d])
  {
  }

  lemma EvictedAreOld(h: seq<ReplayEvent>, d: nat, cursor: u64)
    requires Increasing(h) && d < |h| && SatAdd64(cursor, 1) >= h[d].sequenceId
    ensures After(h[..d], cursor) == []
  {
    NothingAfter(h[..d], cursor);
  }

  /** Without a gap the window misses nothing the client still lacks. */
  lemma WindowCovers(s: Server, cursor: u64)
    requires Windows(s) && Counts(s.history) && s.log.events != []
    requires SatAdd64(cursor, 1) >= s.log.events[0].sequenceId
    ensures After(s.log.events, cursor) == After(s.history, cursor)
  {
    var h, d := s.history, |s.history| - |s.log.events|;
    ContiguousIncreases(h);
    WindowSplits(h, s.log.maxEvents);
    AfterConcat(h[..d], s.log.events, cursor);
    EvictedAreOld(h, d, cursor);
  }

  lemma {:induction false} NothingAfter(events: seq<ReplayEvent>, cursor: u64)
    requires forall i :: 0 <= i < |events| ==> events[i].sequenceId <= cursor
    ensures After(events, cursor) == []
  {
    if events != [] { NothingAfter(events[1..], cursor); }
  }

  lemma SuffixStart(h: seq<ReplayEvent>, cursor: u64, last: nat, m: nat)
    requires Increasing(h) && last < |h| && h[last].sequenceId == cursor && m <= |h|
    requires forall i :: 0 <= i < m ==> h[i].sequenceId <= cursor
    requires forall i :: m <= i < |h| ==> h[i].sequenceId > cursor
    ensures m == last + 1
  {
    assert last + 1 < |h| ==> h[last + 1].sequenceId > cursor;
  }

  /** The first events of a suffix, and what then remains. */
  lemma FirstOfSuffix(h: seq<ReplayEvent>, k: nat, n: nat)
    requires k <= |h|
    ensures var batch := First(h[k..], n);
      |batch| <= |h| - k && batch + h[k + |batch|..] == h[k..] && batch == h[k..k + |batch|]
  {
    var batch := First(h[k..], n);
    assert h[k..] == h[k..k + |batch|] + h[k + |batch|..];
  }

  lemma IncreasingPart(h: seq<ReplayEvent>, i: nat, j: nat)
    requires Increasing(h) && i <= j <= |h|
    ensures Increasing(h[i..j])
  {
  }

  /** After reading the events from `k` on up to `m`, the cursor stands at the last of them. */
  lemma CursorAfter(h: seq<ReplayEvent>, cursor: u64, k: nat, m: nat)
    requires Increasing(h) && k <= m <= |h| && forall i :: k <= i < |h| ==> h[i].sequenceId > cursor
    ensures Advance(cursor, h[k..m]) == if k == m then cursor else h[m - 1].sequenceId
  {
    IncreasingPart(h, k, m);
    AdvanceReaches(cursor, h[k..m]);
  }

  /** One batch moves the front of what is missing to the end of what is received. */
  lemma BatchAdvances(h: seq<ReplayEvent>, cursor: u64, n: nat)
    requires Increasing(h)
    ensures var batch := First(After(h, cursor), n);
      && batch + After(h, Advance(cursor, batch)) == After(h, cursor)
      && (Advance(cursor, batch) == cursor || (h != [] && Advance(cursor, batch) <= h[|h| - 1].sequenceId))
  {
    var k := AfterIsSuffix(h, cursor);
    var batch := First(h[k..], n);
    FirstOfSuffix(h, k, n);
    var m := k + |batch|;
    CursorAfter(h, cursor, k, m);
    if batch != [] {
      var next := h[m - 1].sequenceId;
      var rest := AfterIsSuffix(h, next);
      SuffixStart(h, next, m - 1, rest);
    }
  }

  /** What a successful replay hands out is the front of what the client lacks. */
  lemma ReplayedBatch(s: Server, cursor: u64, max: u32)
    requires Windows(s) && Counts(s.history)
    requires Replay(s.log, cursor, max).Ok? && Replay(s.log, cursor, max).value.Events?
    ensures Replay(s.log, cursor, max).value.events
         == First(After(s.history, cursor), if max == 0 then s.log.maxEvents else max)
  {
    if s.log.events == [] {
      assert s.history == [];
    } else {
      WindowCovers(s, cursor);
    }
  }

  lemma BatchKeeps(start: u64, h: seq<ReplayEvent>, c: Client, n: nat)
    requires Increasing(h) && HasRead(start, h, c)
    ensures var batch := First(After(h, c.cursor), n);
      HasRead(start, h, c.(cursor := Advance(c.cursor, batch), received := c.received + batch))
  {
    var batch := First(After(h, c.cursor), n);
    var next := Advance(c.cursor, batch);
    BatchAdvances(h, c.cursor, n);
    Order.Assoc(c.received, batch, After(h, next));
  }

  lemma CatchUpKeeps(start: u64, sys: System, max: u32)
    requires InStep(start, sys)
    ensures InStep(start, Take(sys, CatchUp(max)))
  {
    var h, c := sys.server.history, sys.client;
    var r := Replay(sys.server.log, c.cursor, max);
    if r.Ok? && r.value.Events? {
      AdvanceGrows(c.cursor, r.value.events);
      if Counts(h) && !c.gapped {
        ContiguousIncreases(h);
        ReplayedBatch(sys.server, c.cursor, max);
        BatchKeeps(start, h, c, if max == 0 then sys.server.log.maxEvents else max);
      }
    }
  }

  lemma PublishKeeps(start: u64, sys: System, e: ReplayEvent)
    requires InStep(start, sys)
    ensures InStep(start, Take(sys, Publish(e)))
  {
    OfferKeepsWindow(sys.server, e);
    var h, c := sys.server.history, sys.client;
    if Objection(sys.server.log, e).None? && Counts(h + [e]) && !c.gapped {
      CountsBefore(h, e);
      CursorBehind(start, sys, e);
      ReadExtends(start, h, c, e);
    }
  }

  lemma CountsBefore(h: seq<ReplayEvent>, e: ReplayEvent)
    requires Counts(h + [e])
    ensures Counts(h)
  {
    forall i | 0 <= i < |h| - 1 ensures h[i].sequenceId < U64_MAX { assert (h + [e])[i] == h[i]; }
  }

  lemma ReadExtends(start: u64, h: seq<ReplayEvent>, c: Client, e: ReplayEvent)
    requires HasRead(start, h, c) && After([e], c.cursor) == After([e], start)
    requires c.cursor == start || c.cursor <= e.sequenceId
    ensures HasRead(start, h + [e], c)
  {
    AfterConcat(h, [e], c.cursor);
    AfterConcat(h, [e], start);
    Order.Assoc(c.received, After(h, c.cursor), After([e], c.cursor));
  }

  /** A cursor that has moved has moved only to events already published, so a new event is after it exactly if it is
      after the start. */
  lemma CursorBehind(start: u64, sys: System, e: ReplayEvent)
    requires InStep(start, sys) && Objection(sys.server.log, e).None? && !sys.client.gapped
    requires Counts(sys.server.history) && Counts(sys.server.history + [e])
    ensures After([e], sys.client.cursor) == After([e], start)
    ensures sys.client.cursor == start || sys.client.cursor <= e.sequenceId
  {
    var h, log := sys.server.history, sys.server.log;
    if h != [] {
      assert (h + [e])[|h| - 1] == h[|h| - 1] == log.events[|log.events| - 1];
    }
  }

  /** Under any interleaving of appends and replay requests, a client that was never told of a gap has received
      exactly the events of the accepted history after its starting cursor, in order, without omission or repetition,
      up to its current cursor. */
  lemma {:induction false} CatchUpIsExact(maxEvents: nat, start: u64, steps: seq<Step>)
    requires 1 <= maxEvents <= MAX_REPLAY_EVENTS
    ensures InStep(start, Run(System(Server([], Empty(maxEvents)), Client(start, [], false)), steps))
  {
    if steps != [] {
      var front := steps[..|steps| - 1];
      CatchUpIsExact(maxEvents, start, front);
      var sys := Run(System(Server([], Empty(maxEvents)), Client(start, [], false)), front);
      match steps[|steps| - 1]
      case Publish(e) => PublishKeeps(start, sys, e);
      case CatchUp(max) => CatchUpKeeps(start, sys, max);
    }
  }

  /** A client whose cursor is not older than the history is told of a gap if and only if an event it lacks has been
      evicted. */
  lemma GapExactly(s: Server, cursor: u64, max: u32)
    requires Windows(s) && Counts(s.history) && s.history != []
    requires s.history[0].sequenceId <= SatAdd64(cursor, 1) && max <= MAX_REPLAY_EVENTS
    ensures Replay(s.log, cursor, max).Ok?
    ensures Replay(s.log, cursor, max).value.Gap? <==>
      exists i :: 0 <= i < |s.history| - |s.log.events| && s.history[i].sequenceId > cursor
  {
    var h, d := s.history, |s.history| - |s.log.events|;
    ContiguousIncreases(h);
    assert s.log.events[0] == h[d];
    if d > 0 && SatAdd64(cursor, 1) < h[d].sequenceId { assert h[d - 1].sequenceId > cursor; }
  }

  /** A batch shorter than asked for tells the client that it has everything. */
  lemma ShortBatchIsComplete(start: u64, sys: System, max: u32)
    requires InStep(start, sys) && Counts(sys.server.history) && !sys.client.gapped && max > 0
    requires var r := Replay(sys.server.log, sys.client.cursor, max);
      r.Ok? && r.value.Events? && |r.value.events| < max
    ensures Take(sys, CatchUp(max)).client.received == After(sys.server.history, start)
  {
    var h, c := sys.server.history, sys.client;
    ContiguousIncreases(h);
    ReplayedBatch(sys.server, c.cursor, max);
  }

  /** At the top of the number range the promise ends: two events can carry the largest number, and a client that has
      read the first is never sent the second, nor told of a gap. */
  lemma TopSequenceIsLost(a: seq<u8>, b: seq<u8>)
    requires |a| <= 1024 && |b| <= 1024
    ensures var first, second := ReplayEvent(U64_MAX, a), ReplayEvent(U64_MAX, b);
      var steps := [Publish(first), CatchUp(0), Publish(second), CatchUp(0)];
      var sys := Run(System(Server([], Empty(2)), Client(U64_MAX - 1, [], false)), steps);
      && sys.server.history == [first, second] && After(sys.server.history, U64_MAX - 1) == [first, second]
      && sys.client.received == [first] && !sys.client.gapped
  {
    var first, second := ReplayEvent(U64_MAX, a), ReplayEvent(U64_MAX, b);
    var s0 := System(Server([], Empty(2)), Client(U64_MAX - 1, [], false));
    var steps := [Publish(first), CatchUp(0), Publish(second), CatchUp(0)];
    assert steps[..3] == [Publish(first), CatchUp(0), Publish(second)];
    assert steps[..3][..2] == [Publish(first), CatchUp(0)];
    assert [Publish(first), CatchUp(0)][..1] == [Publish(first)] && [Publish(first)][..0] == [];
    assert [] + [first] == [first] && [first][..0] == [] && [first][1..] == [];
    assert PayloadBytes([first]) == |a|;
    var s1 := Take(s0, Publish(first));
    assert s1.server == Server([first], Log(2, [first], |a|));
    var s2 := Take(s1, CatchUp(0));
    assert After([first], U64_MAX - 1) == [first];
    assert s2.client == Client(U64_MAX, [first], false);
    var s3 := Take(s2, Publish(second));
    assert [first] + [second] == [first, second] && [first, second][1..] == [second] && [second][1..] == [];
    assert [first, second][..1] == [first];
    assert s3.server == Server([first, second], Log(2, [first, second], |a| + |b|));
    var s4 := Take(s3, CatchUp(0));
    assert After([second], U64_MAX) == [] && After([first, second], U64_MAX) == [];
    assert After([second], U64_MAX - 1) == [second];
    assert [first] + [] == [first];
    assert Run(s0, [Publish(first)]) == s1;
    assert Run(s0, [Publish(first), CatchUp(0)]) == s2;
    assert Run(s0, steps[..3]) == s3;
    assert Run(s0, steps) == s4;
  }
}
