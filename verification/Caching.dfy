/**
 `EstimateCache`: a bounded least-recently-used cache of token estimates
 (crates/context-budget/src/estimator.rs).
 */
module Caching {
  import opened Machine

  datatype EstimateForm = ContentEstimate | ToolSchemaEstimate

  datatype EstimateKey = EstimateKey(
    form: EstimateForm, contentHash: string, tokenizerVersion: string,
    normalizerVersion: string, chatTemplateVersion: string)

  datatype Entry = Entry(key: EstimateKey, tokens: u32)

  // ------------------------------------------------- recency lists, newest first

  function Lookup(entries: seq<Entry>, key: EstimateKey): Option<u32> {
    if entries == [] then None
    else if entries[0].key == key then Some(entries[0].tokens)
    else Lookup(entries[1..], key)
  }

  function Without(entries: seq<Entry>, key: EstimateKey): seq<Entry> {
    if entries == [] then []
    else if entries[0].key == key then Without(entries[1..], key)
    else [entries[0]] + Without(entries[1..], key)
  }

  function Prefix<T>(s: seq<T>, n: nat): seq<T> {
    if |s| <= n then s else s[..n]
  }

  /** `get` moves the entry to the front; `put` adds one there and evicts the oldest beyond the capacity. */
  function Promote(entries: seq<Entry>, key: EstimateKey, tokens: u32, capacity: nat): seq<Entry> {
    Prefix([Entry(key, tokens)] + Without(entries, key), capacity)
  }

  class EstimateCache {
    const capacity: nat
    var entries: seq<Entry>
    var hits: nat
    var misses: nat

    ghost predicate Valid()
      reads this
    {
      1 <= capacity && |entries| <= capacity && Unrepeated(entries)
    }

    /** A zero capacity is raised to one. */
    constructor (capacity: nat)
      ensures Valid() && entries == [] && hits == misses == 0 && this.capacity == Max(capacity, 1)
    {
      this.capacity := Max(capacity, 1);
      entries, hits, misses := [], 0, 0;
    }

    /** Returns the remembered estimate, or remembers and returns the given one. */
    method Estimate(key: EstimateKey, direct: u32) returns (tokens: u32)
      requires Valid()
      modifies this
      ensures Valid()
      ensures tokens == (if Lookup(old(entries), key).Some? then Lookup(old(entries), key).value else direct)
      ensures entries == Promote(old(entries), key, tokens, capacity)
      ensures hits == old(hits) + (if Lookup(old(entries), key).Some? then 1 else 0)
      ensures hits + misses == old(hits) + old(misses) + 1
    {
      var cached := Lookup(entries, key);
      PromoteFits(entries, key, if cached.Some? then cached.value else direct, capacity);
      if cached.Some? {
        hits := hits + 1;
        entries := [Entry(key, cached.value)] + Without(entries, key);
        return cached.value;
      }
      misses := misses + 1;
      entries := [Entry(key, direct)] + Without(entries, key);
      if |entries| > capacity {
        entries := entries[..capacity];
      }
      return direct;
    }
  }

  ghost predicate Unrepeated(entries: seq<Entry>) {
    forall i, j :: 0 <= i < j < |entries| ==> entries[i].key != entries[j].key
  }

  /** Every remembered estimate is the one `truth` gives. */
  ghost predicate Agrees(entries: seq<Entry>, truth: EstimateKey -> u32) {
    forall i :: 0 <= i < |entries| ==> entries[i].tokens == truth(entries[i].key)
  }

  lemma {:induction false} WithoutFacts(entries: seq<Entry>, key: EstimateKey)
    requires Unrepeated(entries)
    ensures var rest := Without(entries, key);
      && Unrepeated(rest) && |rest| <= |entries|
      && (forall i :: 0 <= i < |rest| ==> rest[i].key != key && rest[i] in entries)
      && (Lookup(entries, key).Some? ==> |rest| == |entries| - 1)
      && (Lookup(entries, key).None? ==> rest == entries)
  {
    if entries != [] {
      WithoutFacts(entries[1..], key);
      var tail := Without(entries[1..], key);
      forall i | 0 <= i < |tail| ensures tail[i].key != entries[0].key {
        assert tail[i] in entries[1..];
      }
      if entries[0].key == key {
        LookupMember(entries[1..], key);
      }
    }
  }

  lemma {:induction false} LookupMember(entries: seq<Entry>, key: EstimateKey)
    ensures Lookup(entries, key).Some? <==> exists i :: 0 <= i < |entries| && entries[i].key == key
    ensures Lookup(entries, key).Some? ==> Entry(key, Lookup(entries, key).value) in entries
  {
    if entries != [] {
      LookupMember(entries[1..], key);
      if Lookup(entries[1..], key).Some? {
        var i :| 0 <= i < |entries[1..]| && entries[1..][i].key == key;
        assert entries[i + 1].key == key;
      }
    }
  }

  lemma PromoteFits(entries: seq<Entry>, key: EstimateKey, tokens: u32, capacity: nat)
    requires 1 <= capacity && |entries| <= capacity && Unrepeated(entries)
    ensures Lookup(entries, key).Some? ==> |Without(entries, key)| < capacity
    ensures Unrepeated(Promote(entries, key, tokens, capacity))
    ensures |Without(entries, key)| <= capacity
  {
    WithoutFacts(entries, key);
  }

  // -------------------------------------------------------- runs of the cache

  datatype Request = Request(key: EstimateKey, direct: u32)

  /** The content behind a key fixes the direct estimate: equal hashes and versions mean equal estimates. */
  ghost predicate Determined(requests: seq<Request>) {
    forall i, j :: 0 <= i < |requests| && 0 <= j < |requests| && requests[i].key == requests[j].key ==>
        requests[i].direct == requests[j].direct
  }

  function Answer(entries: seq<Entry>, r: Request): u32 {
    var cached := Lookup(entries, r.key);
    if cached.Some? then cached.value else r.direct
  }

  /** Entries after a run of requests, as the method leaves them. */
  function After(requests: seq<Request>, capacity: nat): seq<Entry> {
    if requests == [] then []
    else
      var before := After(requests[..|requests| - 1], capacity);
      var r := requests[|requests| - 1];
      Promote(before, r.key, Answer(before, r), capacity)
  }

  /** The unbounded recency list: every key ever asked for, most recent first, with its direct estimate. */
  function Recency(requests: seq<Request>): seq<Entry> {
    if requests == [] then []
    else
      var r := requests[|requests| - 1];
      [Entry(r.key, r.direct)] + Without(Recency(requests[..|requests| - 1]), r.key)
  }

  /** The entry answers one of the requests directly. */
  ghost predicate AskedFor(requests: seq<Request>, e: Entry) {
    exists j :: 0 <= j < |requests| && requests[j].key == e.key && requests[j].direct == e.tokens
  }

  lemma AskedBefore(requests: seq<Request>, n: nat, e: Entry)
    requires n <= |requests| && AskedFor(requests[..n], e)
    ensures AskedFor(requests, e)
  {
    var j :| 0 <= j < n && requests[..n][j].key == e.key && requests[..n][j].direct == e.tokens;
    assert requests[j].key == e.key;
  }

  lemma NewestUnrepeated(head: Entry, rest: seq<Entry>)
    requires Unrepeated(rest) && forall i :: 0 <= i < |rest| ==> rest[i].key != head.key
    ensures Unrepeated([head] + rest)
  {
  }

  lemma {:induction false} RecencyUnrepeated(requests: seq<Request>)
    ensures Unrepeated(Recency(requests))
    ensures forall e :: e in Recency(requests) ==> AskedFor(requests, e)
  {
    if requests != [] {
      var n := |requests| - 1;
      var rest := Without(Recency(requests[..n]), requests[n].key);
      RecencyUnrepeated(requests[..n]);
      WithoutFacts(Recency(requests[..n]), requests[n].key);
      var head := Entry(requests[n].key, requests[n].direct);
      assert requests[n].key == head.key;
      NewestUnrepeated(head, rest);
      forall e | e in rest ensures AskedFor(requests, e) {
        var i :| 0 <= i < |rest| && rest[i] == e;
        assert e in Recency(requests[..n]);
        AskedBefore(requests, n, e);
      }
    }
  }

  lemma {:induction false} WithoutCuts(entries: seq<Entry>, key: EstimateKey, k: nat)
    requires Unrepeated(entries) && k < |entries| && entries[k].key == key
    ensures Without(entries, key) == entries[..k] + entries[k + 1..]
  {
    if k == 0 {
      WithoutFacts(entries[1..], key);
      LookupMember(entries[1..], key);
    } else {
      WithoutCuts(entries[1..], key, k - 1);
    }
  }

  lemma WithoutPrefix(entries: seq<Entry>, key: EstimateKey, n: nat)
    requires Unrepeated(entries) && 1 <= n
    ensures Prefix(Without(entries, key), n - 1) ==
            (if Lookup(Prefix(entries, n), key).Some? then Without(Prefix(entries, n), key)
             else Prefix(Prefix(entries, n), n - 1))
  {
    var p := Prefix(entries, n);
    LookupMember(entries, key);
    LookupMember(p, key);
    WithoutFacts(entries, key);
    if k :| 0 <= k < |entries| && entries[k].key == key {
      WithoutCuts(entries, key, k);
      if k < |p| { WithoutCuts(p, key, k); }
    }
  }

  lemma {:induction false} LookupPrefix(entries: seq<Entry>, key: EstimateKey, n: nat)
    ensures Lookup(Prefix(entries, n), key).Some? ==> Lookup(Prefix(entries, n), key) == Lookup(entries, key)
  {
    if entries != [] && n > 0 {
      assert Prefix(entries, n)[1..] == Prefix(entries[1..], n - 1);
      LookupPrefix(entries[1..], key, n - 1);
    }
  }

  lemma PromotePrefix(recent: seq<Entry>, key: EstimateKey, tokens: u32, capacity: nat)
    requires Unrepeated(recent) && 1 <= capacity
    ensures Promote(Prefix(recent, capacity), key, tokens, capacity)
         == Prefix([Entry(key, tokens)] + Without(recent, key), capacity)
  {
    var p := Prefix(recent, capacity);
    WithoutPrefix(recent, key, capacity);
    WithoutFacts(p, key);
    PrefixCons(Entry(key, tokens), Without(recent, key), capacity);
  }

  lemma PrefixCons<T>(e: T, s: seq<T>, n: nat)
    requires n >= 1
    ensures Prefix([e] + s, n) == [e] + Prefix(s, n - 1)
  {
  }

  lemma RemembersDirect(requests: seq<Request>, n: nat, capacity: nat)
    requires n < |requests| && Determined(requests)
    ensures Answer(Prefix(Recency(requests[..n]), capacity), requests[n]) == requests[n].direct
  {
    var front, r := requests[..n], requests[n];
    var recent := Recency(front);
    if Lookup(Prefix(recent, capacity), r.key).Some? {
      RecencyUnrepeated(front);
      LookupPrefix(recent, r.key, capacity);
      LookupMember(recent, r.key);
      var e := Entry(r.key, Lookup(recent, r.key).value);
      var m :| 0 <= m < |recent| && recent[m] == e;
      var j :| 0 <= j < |front| && front[j].key == e.key && front[j].direct == e.tokens;
      assert requests[j] == front[j];
    }
  }

  lemma DeterminedFront(requests: seq<Request>, n: nat)
    requires n <= |requests| && Determined(requests)
    ensures Determined(requests[..n])
  {
    var front := requests[..n];
    forall a, b | 0 <= a < |front| && 0 <= b < |front| && front[a].key == front[b].key
      ensures front[a].direct == front[b].direct
    {
      assert requests[a] == front[a] && requests[b] == front[b];
    }
  }

  /** The bounded cache is the newest `capacity` entries of the unbounded recency list. */
  lemma {:induction false} CacheRefinesRecency(requests: seq<Request>, capacity: nat)
    requires 1 <= capacity && Determined(requests)
    ensures After(requests, capacity) == Prefix(Recency(requests), capacity)
    ensures |After(requests, capacity)| <= capacity
  {
    if requests != [] {
      var n := |requests| - 1;
      DeterminedFront(requests, n);
      CacheRefinesRecency(requests[..n], capacity);
      RecencyUnrepeated(requests[..n]);
      RemembersDirect(requests, n, capacity);
      PromotePrefix(Recency(requests[..n]), requests[n].key, requests[n].direct, capacity);
    }
  }

  /** Every answer of every run is the direct estimate: caching is invisible. */
  lemma CacheTransparent(requests: seq<Request>, capacity: nat, i: nat)
    requires 1 <= capacity && Determined(requests) && i < |requests|
    ensures Answer(After(requests[..i], capacity), requests[i]) == requests[i].direct
  {
    DeterminedFront(requests, i);
    CacheRefinesRecency(requests[..i], capacity);
    RemembersDirect(requests, i, capacity);
  }

  /** Request `i` is a hit exactly if its key is among the `capacity` keys used most recently before it. */
  lemma HitExactly(requests: seq<Request>, capacity: nat, i: nat)
    requires 1 <= capacity && Determined(requests) && i < |requests|
    ensures Lookup(After(requests[..i], capacity), requests[i].key).Some?
       <==> exists k ::
              0 <= k < Min(capacity, |Recency(requests[..i])|) && Recency(requests[..i])[k].key == requests[i].key
  {
    var front, key := requests[..i], requests[i].key;
    DeterminedFront(requests, i);
    CacheRefinesRecency(front, capacity);
    var p := Prefix(Recency(front), capacity);
    LookupMember(p, key);
    assert |p| == Min(capacity, |Recency(front)|);
    assert forall k :: 0 <= k < |p| ==> p[k] == Recency(front)[k];
  }

  /** One call on an agreeing cache returns the truth and leaves it agreeing. */
  lemma PromoteAgrees(entries: seq<Entry>, key: EstimateKey, tokens: u32, capacity: nat, truth: EstimateKey -> u32)
    requires Unrepeated(entries) && Agrees(entries, truth) && tokens == truth(key)
    ensures Agrees(Promote(entries, key, tokens, capacity), truth)
    ensures Lookup(entries, key).Some? ==> Lookup(entries, key).value == truth(key)
  {
    WithoutFacts(entries, key);
    LookupMember(entries, key);
    var rest := Without(entries, key);
    forall i | 0 <= i < |rest| ensures rest[i].tokens == truth(rest[i].key) {
      assert rest[i] in entries;
    }
  }
}
