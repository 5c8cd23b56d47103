/**
 * Properties of the resolution engine that relate several reactions: runs of
 * events, and request scenarios: an offer before the timeout, the CDN
 * fallback, an offer while the CDN is fetching, repeated requests, and the
 * ways a late answer is filed.
 */
module Properties {
  import opened Wrappers
  import opened ChunkCache
  import opened Protocol
  import opened ResolverSpec

  /** The events the engine reacts to. */
  datatype Event =
    | Request(url: string)                // the player calls requestResource
    | Data(peer: PeerId, msg: Msg)        // a message arrives on a channel
    | Connect(peer: PeerId)               // peer:connect
    | Disconnect(peer: PeerId)            // peer:leave
    | Open(peer: PeerId)                  // a data channel opens
    | TimerFires(timer: TimerId)          // a timer set by getFromP2P expires
    | CdnDone(url: string, data: Chunk)   // a CDN request completes

  function SwarmDelta(e: Event): int {
    if e.Connect? then 1 else if e.Disconnect? then -1 else 0
  }

  /** The event is an offer the engine caches without having asked for it. */
  predicate Pushes(s: State, e: Event) {
    e.Data? && e.msg.Offer? && s.currentUrl != Some(e.msg.resource) && !s.cache.Has(e.msg.resource)
  }

  /**
   * One reaction. A timer that is no longer armed never fires and a CDN
   * request that was never made never completes, so those events change nothing.
   */
  function Step(s: State, e: Event): (r: State)
    requires Valid(s)
    ensures Valid(r)
  {
    match e
    case Request(url) => RequestResource(s, url)
    case Data(peer, msg) => OnData(s, peer, msg)
    case Connect(peer) => OnConnect(s, peer)
    case Disconnect(peer) => OnDisconnect(s, peer)
    case Open(peer) => OnOpen(s, peer)
    case TimerFires(t) => if t in s.timers then OnTimeout(s, t) else s
    case CdnDone(url, data) => if url in s.inFlight then ReadBytes(s, url, data) else s
  }

  /** Every reaction changes the swarm count only on connect and leave. */
  lemma StepSwarm(s: State, e: Event)
    requires Valid(s)
    ensures Step(s, e).swarmSize == s.swarmSize + SwarmDelta(e)
  {
  }

  /**
   * Only an unsolicited offer can take a cache within capacity past it, and
   * it adds exactly one entry.
   */
  lemma StepCache(s: State, e: Event)
    requires Valid(s)
    ensures s.cache.Size() <= MAX_CACHE_SIZE && !Pushes(s, e) ==> Step(s, e).cache.Size() <= MAX_CACHE_SIZE
    ensures Pushes(s, e) ==> Step(s, e).cache.Size() == s.cache.Size() + 1
  {
  }

  /** No reaction takes back a delivery. */
  lemma StepDeliveries(s: State, e: Event)
    requires Valid(s)
    ensures s.delivered <= Step(s, e).delivered
  {
  }

  function Run(s: State, es: seq<Event>): (r: State)
    requires Valid(s)
    ensures Valid(r)
    decreases |es|
  {
    if es == [] then s else Run(Step(s, es[0]), es[1..])
  }

  function SwarmDeltas(es: seq<Event>): int
    decreases |es|
  {
    if es == [] then 0 else SwarmDelta(es[0]) + SwarmDeltas(es[1..])
  }

  /** No event of the run is an unsolicited offer, judged in the state it arrives in. */
  predicate NoPushes(s: State, es: seq<Event>)
    requires Valid(s)
    decreases |es|
  {
    es == [] || (!Pushes(s, es[0]) && NoPushes(Step(s, es[0]), es[1..]))
  }

  /** The swarm count is the number of connects minus the number of leaves, with no floor. */
  lemma {:induction false} RunSwarmCount(s: State, es: seq<Event>)
    requires Valid(s)
    ensures Run(s, es).swarmSize == s.swarmSize + SwarmDeltas(es)
    decreases |es|
  {
    if es != [] {
      StepSwarm(s, es[0]);
      RunSwarmCount(Step(s, es[0]), es[1..]);
    }
  }

  /**
   * The cache stays within MAX_CACHE_SIZE over any run in which no peer pushes
   * a chunk the engine did not ask for.
   */
  lemma {:induction false} RunCacheBounded(s: State, es: seq<Event>)
    requires Valid(s) && s.cache.Size() <= MAX_CACHE_SIZE
    requires NoPushes(s, es)
    ensures Run(s, es).cache.Size() <= MAX_CACHE_SIZE
    decreases |es|
  {
    if es != [] {
      StepCache(s, es[0]);
      RunCacheBounded(Step(s, es[0]), es[1..]);
    }
  }

  /** Deliveries are never taken back: each run extends the delivery log. */
  lemma {:induction false} RunDeliveriesGrow(s: State, es: seq<Event>)
    requires Valid(s)
    ensures s.delivered <= Run(s, es).delivered
    decreases |es|
  {
    if es != [] {
      StepDeliveries(s, es[0]);
      RunDeliveriesGrow(Step(s, es[0]), es[1..]);
    }
  }

  /** Every event of the run is an offer the engine did not ask for, judged in the state it arrives in. */
  predicate AllPushes(s: State, es: seq<Event>)
    requires Valid(s)
    decreases |es|
  {
    es == [] || (Pushes(s, es[0]) && AllPushes(Step(s, es[0]), es[1..]))
  }

  /**
   * Unsolicited offers are cached without trimming: each one adds an entry,
   * so a run of them grows the cache past MAX_CACHE_SIZE without bound.
   */
  lemma {:induction false} RunPushesGrow(s: State, es: seq<Event>)
    requires Valid(s) && AllPushes(s, es)
    ensures Run(s, es).cache.Size() == s.cache.Size() + |es|
    decreases |es|
  {
    if es != [] {
      StepCache(s, es[0]);
      RunPushesGrow(Step(s, es[0]), es[1..]);
    }
  }

  /** A connect followed by a leave restores the engine. */
  lemma ConnectThenDisconnect(s: State, p: PeerId, q: PeerId)
    ensures OnDisconnect(OnConnect(s, p), q) == s
  {
  }

  /**
   * Asking twice for an uncached url sends (or fetches) once: the second call
   * finds the url awaited and is suppressed.
   */
  lemma RepeatedRequestSuppressed(s: State, url: string)
    requires Valid(s) && s.currentUrl != Some(url) && !s.cache.Has(url)
    ensures RequestResource(RequestResource(s, url), url) == RequestResource(s, url)
  {
  }

  /**
   * Asking twice for a cached url is not suppressed: the cache hit forgets
   * `currentUrl`, so the chunk is delivered twice and the swarm asked twice.
   */
  lemma RepeatedCachedRequestRepeats(s: State, url: string)
    requires Valid(s) && s.currentUrl != Some(url) && s.cache.Has(url)
    requires s.cache.Size() <= MAX_CACHE_SIZE && s.swarmSize > 0
    ensures var r := RequestResource(RequestResource(s, url), url);
      r.delivered == s.delivered + [s.cache.Get(url), s.cache.Get(url)] &&
      r.sent == s.sent + [Sent(s.channel, Req(url)), Sent(s.channel, Req(url))]
  {
  }

  /**
   * A matching offer that arrives before the timer: the offered chunk is
   * delivered and cached, the timer armed for the request is cancelled, and
   * the CDN is never asked.
   */
  lemma OfferBeforeTimeout(s: State, url: string, peer: PeerId, c: Chunk)
    requires Valid(s) && s.currentUrl != Some(url) && !s.cache.Has(url) && s.swarmSize > 0
    ensures var s1 := RequestResource(s, url);
      var s2 := OnData(s1, peer, Offer(url, c));
      s1.requestTimeout == Some(s.nextTimer) && s.nextTimer in s1.timers &&
      s.nextTimer !in s2.timers && s2.timers == s.timers &&
      s2.fetches == s.fetches && s2.delivered == s.delivered + [c] &&
      s2.currentUrl == None && s2.cache.Has(url) && s2.cache.Get(url) == c
  {
  }

  /**
   * No matching offer before the timer: its expiry asks the CDN once for the
   * url, and the completed fetch is delivered and cached under that url. An
   * offer for it arriving after that answer changes nothing.
   */
  lemma TimeoutFallsBackToCdn(s: State, url: string, peer: PeerId, d: Chunk, late: Chunk)
    requires Valid(s) && s.currentUrl != Some(url) && !s.cache.Has(url) && s.swarmSize > 0
    ensures var s1 := RequestResource(s, url);
      var s2 := OnTimeout(s1, s.nextTimer);
      var s3 := ReadBytes(s2, url, d);
      s2.fetches == s.fetches + [url] && s2.delivered == s.delivered &&
      s3.fetches == s.fetches + [url] && s3.delivered == s.delivered + [d] &&
      s3.cache.Has(url) && s3.cache.Get(url) == d &&
      OnData(s3, peer, Offer(url, late)) == s3
  {
  }

  /**
   * An offer that arrives after the timer has fired but before the CDN
   * answers still matches `currentUrl`, which the expiry left in place: it is
   * delivered and cached under the url. The CDN answer is then delivered a
   * second time and, `currentUrl` being undefined by then, stored under the
   * key "undefined".
   */
  lemma OfferDuringCdnFetch(s: State, url: string, peer: PeerId, c: Chunk, d: Chunk)
    requires Valid(s) && s.currentUrl != Some(url) && !s.cache.Has(url) && s.swarmSize > 0
    requires s.cache.Size() <= MAX_CACHE_SIZE
    ensures var s1 := RequestResource(s, url);
      var s2 := OnTimeout(s1, s.nextTimer);
      var s3 := OnData(s2, peer, Offer(url, c));
      var s4 := ReadBytes(s3, url, d);
      s2.currentUrl == Some(url) &&
      s3.delivered == s.delivered + [c] &&
      s4.delivered == s.delivered + [c, d] &&
      s4.fetches == s.fetches + [url] &&
      s4.cache.Has(UNDEFINED_KEY) && s4.cache.Get(UNDEFINED_KEY) == d
  {
  }

  /**
   * With no peers, a cache hit is delivered and the CDN is still asked; its
   * answer is delivered a second time and, `currentUrl` being undefined by
   * then, stored under the key "undefined".
   */
  lemma CachedRequestRefetches(s: State, url: string, d: Chunk)
    requires Valid(s) && s.currentUrl != Some(url) && s.cache.Has(url)
    requires s.cache.Size() <= MAX_CACHE_SIZE && s.swarmSize <= 0
    ensures var s1 := RequestResource(s, url);
      var s2 := ReadBytes(s1, url, d);
      s1.fetches == s.fetches + [url] &&
      s2.delivered == s.delivered + [s.cache.Get(url), d] &&
      s2.cache == s.cache.Store(UNDEFINED_KEY, d)
  {
  }

  /**
   * With no peers, a CDN answer that completes after the player moved on to
   * another url is delivered and stored under that other url.
   */
  lemma LateCdnAnswerMisfiled(s: State, u: string, v: string, du: Chunk)
    requires Valid(s) && s.currentUrl != Some(u) && u != v
    requires !s.cache.Has(u) && !s.cache.Has(v) && s.swarmSize <= 0
    ensures var s2 := RequestResource(RequestResource(s, u), v);
      var s3 := ReadBytes(s2, u, du);
      s2.currentUrl == Some(v) &&
      s3.cache == s.cache.Store(v, du) &&
      s3.delivered == s.delivered + [du]
  {
  }

  /**
   * A new request arms a new timer without cancelling the previous one, and
   * an offer cancels only the last: the first request's timer survives and
   * later asks the CDN for the abandoned url.
   */
  lemma AbandonedTimerStillFires(s: State, u: string, v: string, peer: PeerId, c: Chunk)
    requires Valid(s) && s.currentUrl != Some(u) && u != v
    requires !s.cache.Has(u) && !s.cache.Has(v) && s.swarmSize > 0
    ensures var s2 := RequestResource(RequestResource(s, u), v);
      var s3 := OnData(s2, peer, Offer(v, c));
      s.nextTimer in s3.timers && s3.timers[s.nextTimer] == u &&
      OnTimeout(s3, s.nextTimer).fetches == s.fetches + [u]
  {
  }
}
