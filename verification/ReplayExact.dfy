/**
 Exactly which histories a cursor-driven client can follow without loss.
 */
module ReplayExact {
  import opened Machine
  import opened ReplayLog

  function Opening(maxEvents: nat): Server {
    Server([], Empty(maxEvents))
  }

  function Connected(maxEvents: nat, start: u64): System {
    System(Opening(maxEvents), Client(start, [], false))
  }

  /** A log of this capacity accepts the events one after the other. */
  ghost predicate Publishable(maxEvents: nat, h: seq<ReplayEvent>) {
    OfferAll(Opening(maxEvents), h).history == h
  }

  /** Whatever is published and read in between, a client that was told of no gap has read exactly. */
  ghost predicate Promised(maxEvents: nat, start: u64, h: seq<ReplayEvent>) {
    forall steps :: var sys := Run(Connected(maxEvents, start), steps);
      sys.server.history == h && !sys.client.gapped ==> HasRead(start, h, sys.client)
  }

  // ----------------------------------------------------------------- publishable histories

  lemma {:induction false} HistoryBounded(s: Server, offers: seq<ReplayEvent>)
    ensures |OfferAll(s, offers).history| <= |s.history| + |offers|
  {
    if offers != [] { HistoryBounded(s, offers[..|offers| - 1]); }
  }

  lemma {:induction false} PrefixPublishable(maxEvents: nat, h: seq<ReplayEvent>, n: nat)
    requires Publishable(maxEvents, h) && n <= |h|
    ensures Publishable(maxEvents, h[..n])
  {
    if n < |h| {
      var k := |h| - 1;
      HistoryBounded(Opening(maxEvents), h[..k]);
      var before := OfferAll(Opening(maxEvents), h[..k]).history;
      assert before == h[..k];
      PrefixPublishable(maxEvents, h[..k], n);
      assert h[..k][..n] == h[..n];
    } else {
      assert h[..n] == h;
    }
  }

  lemma OfferSnoc(s: Server, offers: seq<ReplayEvent>, e: ReplayEvent)
    ensures OfferAll(s, offers + [e]) == Offer(OfferAll(s, offers), e)
  {
    assert (offers + [e])[..|offers|] == offers;
  }

  /** Every history that some offers lead to is publishable, and publishing it leads to the same log. */
  lemma {:induction false} HistoryIsPublishable(maxEvents: nat, offers: seq<ReplayEvent>)
    ensures var s := OfferAll(Opening(maxEvents), offers); OfferAll(Opening(maxEvents), s.history) == s
  {
    if offers != [] {
      var front, last := offers[..|offers| - 1], offers[|offers| - 1];
      HistoryIsPublishable(maxEvents, front);
      var s := OfferAll(Opening(maxEvents), front);
      if Objection(s.log, last).None? { OfferSnoc(Opening(maxEvents), s.history, last); }
    }
  }

  // ------------------------------------------------------------- a run that reads along

  function Publishes(es: seq<ReplayEvent>): seq<Step> {
    if es == [] then [] else Publishes(es[..|es| - 1]) + [Publish(es[|es| - 1])]
  }

  /** Every event is read as soon as it is published. */
  function Along(h: seq<ReplayEvent>): seq<Step> {
    if h == [] then [] else Along(h[..|h| - 1]) + [Publish(h[|h| - 1])] + [CatchUp(0)]
  }

  lemma RunSnoc(sys: System, steps: seq<Step>, step: Step)
    ensures Run(sys, steps + [step]) == Take(Run(sys, steps), step)
  {
    assert (steps + [step])[..|steps|] == steps;
  }

  lemma {:induction false} RunConcat(sys: System, a: seq<Step>, b: seq<Step>)
    ensures Run(sys, a + b) == Run(Run(sys, a), b)
  {
    if b == [] {
      assert a + b == a;
    } else {
      var front, last := b[..|b| - 1], b[|b| - 1];
      RunConcat(sys, a, front);
      assert b == front + [last] && a + b == a + front + [last];
      RunSnoc(sys, a + front, last);
      RunSnoc(Run(sys, a), front, last);
    }
  }

  lemma {:induction false} RunPublishes(sys: System, es: seq<ReplayEvent>)
    ensures Run(sys, Publishes(es)) == sys.(server := OfferAll(sys.server, es))
  {
    if es != [] {
      var n := |es| - 1;
      RunPublishes(sys, es[..n]);
      RunSnoc(sys, Publishes(es[..n]), Publish(es[n]));
    }
  }

  lemma {:induction false} OfferConcat(s: Server, a: seq<ReplayEvent>, b: seq<ReplayEvent>)
    ensures OfferAll(s, a + b) == OfferAll(OfferAll(s, a), b)
  {
    if b == [] {
      assert a + b == a;
    } else {
      var front, last := b[..|b| - 1], b[|b| - 1];
      OfferConcat(s, a, front);
      assert b == front + [last] && a + b == a + front + [last];
      OfferSnoc(s, a + front, last);
      OfferSnoc(OfferAll(s, a), front, last);
    }
  }

  /** The cursor of a client that has read everything. */
  function Reached(start: u64, h: seq<ReplayEvent>): u64 {
    if h == [] then start else Max(start, h[|h| - 1].sequenceId)
  }

  lemma OneEvent(e: ReplayEvent, c: u64)
    ensures After([e], c) == if e.sequenceId > c then [e] else []
    ensures Advance(c, [e]) == Max(c, e.sequenceId) && Advance(c, []) == c
  {
    assert [e][..0] == [];
  }

  lemma FrontRead(start: u64, h: seq<ReplayEvent>, i: nat)
    requires Contiguous(h) && Counts(h) && i < |h| - 1
    ensures h[i].sequenceId <= Reached(start, h[..|h| - 1]) && h[|h| - 1].sequenceId > h[|h| - 2].sequenceId
  {
    ContiguousIncreases(h);
    assert h[..|h| - 1][|h| - 2] == h[|h| - 2];
  }

  lemma FrontIsRead(start: u64, h: seq<ReplayEvent>)
    requires h != [] && Contiguous(h) && Counts(h)
    ensures After(h[..|h| - 1], Reached(start, h[..|h| - 1])) == []
  {
    var front := h[..|h| - 1];
    forall i | 0 <= i < |front| ensures front[i].sequenceId <= Reached(start, front) { FrontRead(start, h, i); }
    NothingAfter(front, Reached(start, front));
  }

  lemma AfterSnoc(front: seq<ReplayEvent>, last: ReplayEvent, cursor: u64)
    ensures After(front + [last], cursor) == After(front, cursor) + if last.sequenceId > cursor then [last] else []
  {
    AfterConcat(front, [last], cursor);
    OneEvent(last, cursor);
  }

  /** A client that has read all events but the newest misses exactly that one, if it is after its start. */
  lemma MissesNewest(start: u64, h: seq<ReplayEvent>, c: u64)
    requires h != [] && Contiguous(h) && Counts(h) && c == Reached(start, h[..|h| - 1])
    ensures After(h, c) == After([h[|h| - 1]], start)
    ensures After(h, start) == After(h[..|h| - 1], start) + After([h[|h| - 1]], start)
    ensures Advance(c, After(h, c)) == Reached(start, h)
  {
    var front, last := h[..|h| - 1], h[|h| - 1];
    assert h == front + [last];
    AfterSnoc(front, last, c);
    AfterSnoc(front, last, start);
    FrontIsRead(start, h);
    if |h| > 1 { FrontRead(start, h, |h| - 2); }
    OneEvent(last, c);
    OneEvent(last, start);
  }

  /** Such a client is told of no gap. */
  lemma NoGapAlong(s: Server, start: u64, c: u64)
    requires Windows(s) && Counts(s.history) && s.history != [] && s.history[0].sequenceId <= SatAdd64(start, 1)
    requires c == Reached(start, s.history[..|s.history| - 1])
    ensures s.log.events != [] && SatAdd64(c, 1) >= s.log.events[0].sequenceId
  {
    var h := s.history;
    ContiguousIncreases(h);
    var d := |h| - |s.log.events|;
    assert s.log.events[0] == h[d];
    if |h| > 1 { assert h[..|h| - 1][|h| - 2] == h[|h| - 2]; }
  }

  lemma ReadNewest(s: Server, start: u64, c: Client)
    requires Windows(s) && Counts(s.history) && s.history != [] && s.history[0].sequenceId <= SatAdd64(start, 1)
    requires var front := s.history[..|s.history| - 1]; c == Client(Reached(start, front), After(front, start), false)
    ensures Take(System(s, c), CatchUp(0)).client == Client(Reached(start, s.history), After(s.history, start), false)
  {
    NewestReplayed(s, start, c.cursor);
    MissesNewest(start, s.history, c.cursor);
  }

  lemma NewestReplayed(s: Server, start: u64, c: u64)
    requires Windows(s) && Counts(s.history) && s.history != [] && s.history[0].sequenceId <= SatAdd64(start, 1)
    requires c == Reached(start, s.history[..|s.history| - 1])
    ensures Replay(s.log, c, 0) == Ok(Events(After(s.history, c)))
  {
    var h := s.history;
    NoGapAlong(s, start, c);
    ReplayedBatch(s, c, 0);
    MissesNewest(start, h, c);
    OneEvent(h[|h| - 1], start);
  }

  lemma AlongUnfolds(sys: System, h: seq<ReplayEvent>)
    requires h != []
    ensures Run(sys, Along(h)) == Take(Take(Run(sys, Along(h[..|h| - 1])), Publish(h[|h| - 1])), CatchUp(0))
  {
    var front, last := h[..|h| - 1], h[|h| - 1];
    RunSnoc(sys, Along(front), Publish(last));
    RunSnoc(sys, Along(front) + [Publish(last)], CatchUp(0));
  }

  lemma {:induction false} ReadsAlong(maxEvents: nat, start: u64, h: seq<ReplayEvent>)
    requires 1 <= maxEvents <= MAX_REPLAY_EVENTS && Publishable(maxEvents, h) && Counts(h)
    requires h != [] ==> h[0].sequenceId <= SatAdd64(start, 1)
    ensures Run(Connected(maxEvents, start), Along(h))
         == System(OfferAll(Opening(maxEvents), h), Client(Reached(start, h), After(h, start), false))
  {
    if h != [] {
      var n := |h| - 1;
      var front, sys := h[..n], Connected(maxEvents, start);
      PrefixPublishable(maxEvents, h, n);
      ReadsAlong(maxEvents, start, front);
      AlongUnfolds(sys, h);
      ReadsNext(maxEvents, start, h);
    }
  }

  lemma PublishAlong(maxEvents: nat, h: seq<ReplayEvent>, c: Client)
    requires h != []
    ensures Take(System(OfferAll(Opening(maxEvents), h[..|h| - 1]), c), Publish(h[|h| - 1]))
         == System(OfferAll(Opening(maxEvents), h), c)
  {
  }

  lemma CatchUpKeepsServer(sys: System, max: u32)
    ensures Take(sys, CatchUp(max)).server == sys.server
  {
  }

  /** One more event, published and read. */
  lemma ReadsNext(maxEvents: nat, start: u64, h: seq<ReplayEvent>)
    requires 1 <= maxEvents <= MAX_REPLAY_EVENTS && Publishable(maxEvents, h) && Counts(h)
    requires h != [] && h[0].sequenceId <= SatAdd64(start, 1)
    ensures var front := h[..|h| - 1];
      var c := Client(Reached(start, front), After(front, start), false);
      Take(Take(System(OfferAll(Opening(maxEvents), front), c), Publish(h[|h| - 1])), CatchUp(0))
      == System(OfferAll(Opening(maxEvents), h), Client(Reached(start, h), After(h, start), false))
  {
    var front := h[..|h| - 1];
    var c := Client(Reached(start, front), After(front, start), false);
    LogRefinesHistory(maxEvents, h);
    PublishAlong(maxEvents, h, c);
    ReadNewest(OfferAll(Opening(maxEvents), h), start, c);
    CatchUpKeepsServer(System(OfferAll(Opening(maxEvents), h), c), 0);
  }

  // ------------------------------------------------------- the failing run at the top

  lemma {:induction false} FirstTop(h: seq<ReplayEvent>) returns (i: nat)
    requires !Counts(h)
    ensures i < |h| - 1 && h[i].sequenceId == U64_MAX && Counts(h[..i + 1])
  {
    if !Counts(h[..|h| - 1]) {
      i := FirstTop(h[..|h| - 1]);
      assert h[..|h| - 1][..i + 1] == h[..i + 1];
    } else {
      i := |h| - 2;
    }
  }

  lemma TopStays(h: seq<ReplayEvent>, i: nat)
    requires Contiguous(h) && i + 1 < |h| && h[i].sequenceId == U64_MAX
    ensures h[i + 1].sequenceId == U64_MAX
  {
  }

  /** Read along up to the first event with the largest number, then publish the rest: it is lost without a gap. */
  lemma TopIsLost(maxEvents: nat, start: u64, h: seq<ReplayEvent>, i: nat) returns (steps: seq<Step>)
    requires 1 <= maxEvents <= MAX_REPLAY_EVENTS && Publishable(maxEvents, h)
    requires i < |h| - 1 && h[i].sequenceId == U64_MAX && Counts(h[..i + 1])
    requires start < U64_MAX && h[0].sequenceId <= SatAdd64(start, 1)
    ensures var sys := Run(Connected(maxEvents, start), steps);
      && sys.server.history == h && !sys.client.gapped && sys.client.cursor == U64_MAX
      && sys.client.received == After(h[..i + 1], start)
  {
    var read, rest, sys := h[..i + 1], h[i + 1..], Connected(maxEvents, start);
    PrefixPublishable(maxEvents, h, i + 1);
    ReadsAlong(maxEvents, start, read);
    assert h == read + rest;
    OfferConcat(Opening(maxEvents), read, rest);
    steps := Along(read) + Publishes(rest);
    RunConcat(sys, Along(read), Publishes(rest));
    RunPublishes(Run(sys, Along(read)), rest);
  }

  lemma LossShows(start: u64, h: seq<ReplayEvent>, i: nat, c: Client)
    requires i < |h| - 1 && h[i + 1].sequenceId == U64_MAX && start < U64_MAX
    requires c.cursor == U64_MAX && c.received == After(h[..i + 1], start)
    ensures !HasRead(start, h, c)
  {
    var read, rest := h[..i + 1], h[i + 1..];
    assert h == read + rest && rest[0] == h[i + 1];
    AfterConcat(read, rest, start);
    NothingAfter(h, U64_MAX);
    assert After(rest, start)[0] == rest[0];
    assert |c.received + After(h, c.cursor)| < |After(h, start)|;
  }

  lemma TopBreaksPromise(maxEvents: nat, start: u64, h: seq<ReplayEvent>)
    requires 1 <= maxEvents <= MAX_REPLAY_EVENTS && Publishable(maxEvents, h) && !Counts(h)
    requires start < U64_MAX && h[0].sequenceId <= SatAdd64(start, 1)
    ensures !Promised(maxEvents, start, h)
  {
    LogRefinesHistory(maxEvents, h);
    var i := FirstTop(h);
    TopStays(h, i);
    var steps := TopIsLost(maxEvents, start, h, i);
    LossShows(start, h, i, Run(Connected(maxEvents, start), steps).client);
  }

  // ------------------------------------------------ clients that never read past the top

  /** What a client that starts at the top, or too far back, can have done without being told of a gap: nothing. */
  ghost predicate Idle(start: u64, sys: System) {
    && Windows(sys.server)
    && (!sys.client.gapped &&
        (start == U64_MAX || sys.server.history == [] || SatAdd64(start, 1) < sys.server.history[0].sequenceId) ==>
          sys.client == Client(start, [], false))
  }

  lemma {:induction false} NeverFalls(h: seq<ReplayEvent>, k: nat)
    requires Contiguous(h) && k < |h|
    ensures h[k].sequenceId >= h[0].sequenceId
  {
    if k > 0 { NeverFalls(h, k - 1); }
  }

  lemma NoneAboveTop(events: seq<ReplayEvent>)
    ensures After(events, U64_MAX) == []
  {
    NothingAfter(events, U64_MAX);
  }

  /** The log has nothing for a client at the top, and a gap for one before the history. */
  lemma NothingToRead(s: Server, start: u64, max: u32)
    requires Windows(s) && (start == U64_MAX || s.history == [] || SatAdd64(start, 1) < s.history[0].sequenceId)
    ensures var r := Replay(s.log, start, max); r.Ok? && r.value.Events? ==> r.value.events == []
  {
    var h, log := s.history, s.log;
    NoneAboveTop(log.events);
    if h != [] {
      assert log.events[0] == h[|h| - |log.events|];
      NeverFalls(h, |h| - |log.events|);
    }
  }

  lemma IdleCatchUp(start: u64, sys: System, max: u32)
    requires Idle(start, sys)
    ensures Idle(start, Take(sys, CatchUp(max)))
  {
    if start == U64_MAX || sys.server.history == [] || SatAdd64(start, 1) < sys.server.history[0].sequenceId {
      NothingToRead(sys.server, start, max);
    }
  }

  lemma IdlePublish(start: u64, sys: System, e: ReplayEvent)
    requires Idle(start, sys)
    ensures Idle(start, Take(sys, Publish(e)))
  {
    OfferKeepsWindow(sys.server, e);
    var h := sys.server.history;
    if h != [] { assert (h + [e])[0] == h[0]; }
  }

  lemma {:induction false} StaysIdle(maxEvents: nat, start: u64, steps: seq<Step>)
    requires 1 <= maxEvents <= MAX_REPLAY_EVENTS
    ensures Idle(start, Run(Connected(maxEvents, start), steps))
  {
    if steps != [] {
      var front := steps[..|steps| - 1];
      StaysIdle(maxEvents, start, front);
      var sys := Run(Connected(maxEvents, start), front);
      match steps[|steps| - 1]
      case Publish(e) => IdlePublish(start, sys, e);
      case CatchUp(max) => IdleCatchUp(start, sys, max);
    }
  }

  /** Exact catch-up without a gap report is promised for a history if and only if no event follows one with the largest
      number, or the client starts where it cannot read such an event: at the top, or before the history. */
  lemma CatchUpPromisedExactly(maxEvents: nat, start: u64, h: seq<ReplayEvent>)
    requires 1 <= maxEvents <= MAX_REPLAY_EVENTS && Publishable(maxEvents, h)
    ensures Promised(maxEvents, start, h) <==>
              Counts(h) || start == U64_MAX || SatAdd64(start, 1) < h[0].sequenceId
  {
    if Counts(h) || start == U64_MAX || SatAdd64(start, 1) < h[0].sequenceId {
      forall steps | var sys := Run(Connected(maxEvents, start), steps); sys.server.history == h && !sys.client.gapped
        ensures HasRead(start, h, Run(Connected(maxEvents, start), steps).client)
      {
        CatchUpIsExact(maxEvents, start, steps);
        StaysIdle(maxEvents, start, steps);
      }
    } else {
      TopBreaksPromise(maxEvents, start, h);
    }
  }
}
