/**
 * The resolution engine of html/js/BemTV.js as a value: the fields of the
 * BemTV object together with logs of what it asked of its environment, and
 * one function per reaction. Each function states in its postcondition what
 * the reaction does to that state.
 */
module ResolverSpec {
  import opened Wrappers
  import opened ChunkCache
  import opened Protocol

  type PeerId = string
  type TimerId = nat

  /** The property name JavaScript uses when `undefined` indexes an object. */
  const UNDEFINED_KEY: string := "undefined"

  /** The cache key `chunksCache[currentUrl]` writes to. */
  function KeyOf(u: Option<string>): (k: string)
    ensures u.Some? ==> k == u.value
  {
    match u
    case Some(x) => x
    case None => UNDEFINED_KEY
  }

  /** A message handed to `bufferedChannel.send`, with the peer whose channel that was. */
  datatype Sent = Sent(channel: Option<PeerId>, msg: Msg)

  datatype State = State(
    cache: Cache,                      // chunksCache
    swarmSize: int,                    // swarmSize
    currentUrl: Option<string>,        // currentUrl (None is undefined)
    requestTimeout: Option<TimerId>,   // requestTimeout: handle of the last timer armed
    timers: map<TimerId, string>,      // armed timers and the url each captured
    nextTimer: TimerId,                // next handle setTimeout hands out
    channel: Option<PeerId>,           // bufferedChannel: the last channel opened
    sent: seq<Sent>,                   // messages sent to peers
    fetches: seq<string>,              // CDN requests made
    inFlight: multiset<string>,        // CDN requests not yet completed
    delivered: seq<Chunk>)             // chunks handed to the player

  ghost predicate Valid(s: State) {
    s.cache.Valid() && forall t :: t in s.timers ==> t < s.nextTimer
  }

  /** `_init` (html/js/BemTV.js:21-29), without room discovery and connection setup. */
  function Init(): (s: State)
    ensures Valid(s)
    ensures s.cache.Size() == 0 && s.swarmSize == 0
    ensures s.currentUrl == None && s.requestTimeout == None && s.channel == None
    ensures s.timers == map[] && s.sent == [] && s.fetches == [] && s.delivered == []
    ensures s.inFlight == multiset{}
  {
    State(Empty, 0, None, None, map[], 1, None, [], [], multiset{}, [])
  }

  /**
   * `sendToPlayer(data)` (html/js/BemTV.js:131-137): hands `data` to the player
   * exactly once, stores it under the key of `currentUrl` (which may be
   * undefined), forgets `currentUrl` and trims the cache. Nothing else changes.
   */
  function SendToPlayer(s: State, data: Chunk): (r: State)
    requires Valid(s)
    ensures Valid(r)
    ensures r.delivered == s.delivered + [data]
    ensures r.currentUrl == None
    ensures r.cache == s.cache.Store(KeyOf(s.currentUrl), data)
    ensures s.cache.Size() <= MAX_CACHE_SIZE ==> r.cache.Size() <= MAX_CACHE_SIZE
    ensures s.cache.Size() <= MAX_CACHE_SIZE ==>
      r.cache.Has(KeyOf(s.currentUrl)) && r.cache.Get(KeyOf(s.currentUrl)) == data
    ensures r.(cache := s.cache, currentUrl := s.currentUrl, delivered := s.delivered) == s
  {
    s.(cache := s.cache.Store(KeyOf(s.currentUrl), data),
       currentUrl := None,
       delivered := s.delivered + [data])
  }

  /**
   * `getFromP2P(url)` (html/js/BemTV.js:113-118): one request for `url` on the
   * current channel and one newly armed timer that captured `url`; the handle
   * of the new timer replaces `requestTimeout`, and timers armed before stay
   * armed.
   */
  function GetFromP2P(s: State, url: string): (r: State)
    requires Valid(s)
    ensures Valid(r)
    ensures r.sent == s.sent + [Sent(s.channel, Req(url))]
    ensures s.nextTimer !in s.timers && r.timers == s.timers[s.nextTimer := url]
    ensures r.requestTimeout == Some(s.nextTimer)
    ensures r.(sent := s.sent, timers := s.timers, requestTimeout := s.requestTimeout, nextTimer := s.nextTimer) == s
  {
    s.(sent := s.sent + [Sent(s.channel, Req(url))],
       timers := s.timers[s.nextTimer := url],
       requestTimeout := Some(s.nextTimer),
       nextTimer := s.nextTimer + 1)
  }

  /** `getFromCDN(url)` (html/js/BemTV.js:120-123): one CDN request for `url`; nothing else changes. */
  function GetFromCDN(s: State, url: string): (r: State)
    requires Valid(s)
    ensures Valid(r)
    ensures r.fetches == s.fetches + [url] && r.inFlight == s.inFlight + multiset{url}
    ensures r.(fetches := s.fetches, inFlight := s.inFlight) == s
  {
    s.(fetches := s.fetches + [url], inFlight := s.inFlight + multiset{url})
  }

  /**
   * `requestResource(url)` (html/js/BemTV.js:95-111). A request for the url
   * already awaited changes nothing. Otherwise a cached chunk is delivered at
   * once, and the swarm gate then sends one request and arms one timer when
   * the swarm count is positive, or asks the CDN once when it is not.
   */
  function RequestResource(s: State, url: string): (r: State)
    requires Valid(s)
    ensures Valid(r)
    ensures s.currentUrl == Some(url) ==> r == s
    ensures s.currentUrl != Some(url) ==>
      r.swarmSize == s.swarmSize && r.channel == s.channel
    ensures s.currentUrl != Some(url) && s.cache.Has(url) ==>
      r.delivered == s.delivered + [s.cache.Get(url)] && r.currentUrl == None
    ensures s.currentUrl != Some(url) && s.cache.Has(url) ==>
      r.cache == s.cache.CheckSize()
    ensures s.currentUrl != Some(url) && !s.cache.Has(url) ==>
      r.delivered == s.delivered && r.currentUrl == Some(url) && r.cache == s.cache
    ensures s.cache.Size() <= MAX_CACHE_SIZE ==> r.cache.Size() <= MAX_CACHE_SIZE
    ensures s.delivered <= r.delivered
    ensures s.currentUrl != Some(url) && s.swarmSize > 0 ==>
      r.sent == s.sent + [Sent(s.channel, Req(url))] &&
      r.fetches == s.fetches && r.inFlight == s.inFlight &&
      s.nextTimer !in s.timers && r.timers == s.timers[s.nextTimer := url] &&
      r.requestTimeout == Some(s.nextTimer)
    ensures s.currentUrl != Some(url) && s.swarmSize <= 0 ==>
      r.sent == s.sent &&
      r.fetches == s.fetches + [url] && r.inFlight == s.inFlight + multiset{url} &&
      r.timers == s.timers && r.requestTimeout == s.requestTimeout
  {
    if s.currentUrl == Some(url) then
      s
    else
      var s1 := s.(currentUrl := Some(url));
      var s2 := if s1.cache.Has(url) then SendToPlayer(s1, s1.cache.Get(url)) else s1;
      if s2.swarmSize > 0 then GetFromP2P(s2, url) else GetFromCDN(s2, url)
  }

  /** `clearTimeout(requestTimeout)`: cancels the last armed timer, if it is still armed. */
  function ClearTimeout(s: State): (r: State)
    requires Valid(s)
    ensures Valid(r)
    ensures s.requestTimeout.Some? ==> r.timers == s.timers - {s.requestTimeout.value}
    ensures s.requestTimeout.None? ==> r == s
    ensures r.(timers := s.timers) == s
  {
    match s.requestTimeout
    case Some(t) => s.(timers := s.timers - {t})
    case None => s
  }

  /**
   * `onData(id, msg)` (html/js/BemTV.js:52-75), in priority order:
   * a request for a cached resource is answered with one offer of the cached
   * chunk, on the current channel (not necessarily the requester's);
   * an offer of the awaited resource cancels the last timer and is delivered;
   * an offer of a resource neither cached nor awaited is cached as the newest
   * entry, without delivery and without trimming the cache;
   * anything else changes nothing.
   */
  function OnData(s: State, peer: PeerId, m: Msg): (r: State)
    requires Valid(s)
    ensures Valid(r)
    ensures r.swarmSize == s.swarmSize && r.channel == s.channel
    ensures r.fetches == s.fetches && r.inFlight == s.inFlight
    ensures r.requestTimeout == s.requestTimeout && r.nextTimer == s.nextTimer
    ensures s.delivered <= r.delivered
    ensures (s.cache.Size() <= MAX_CACHE_SIZE &&
             !(m.Offer? && s.currentUrl != Some(m.resource) && !s.cache.Has(m.resource))) ==>
      r.cache.Size() <= MAX_CACHE_SIZE
    ensures m.Req? && s.cache.Has(m.resource) ==>
      r == s.(sent := s.sent + [Sent(s.channel, Offer(m.resource, s.cache.Get(m.resource)))])
    ensures m.Req? && !s.cache.Has(m.resource) ==> r == s
    ensures m.Offer? && s.currentUrl == Some(m.resource) ==>
      r.sent == s.sent && r.delivered == s.delivered + [m.chunk] && r.currentUrl == None &&
      r.cache == s.cache.Store(m.resource, m.chunk) &&
      (s.requestTimeout.Some? ==> r.timers == s.timers - {s.requestTimeout.value}) &&
      (s.requestTimeout.None? ==> r.timers == s.timers)
    ensures m.Offer? && s.currentUrl != Some(m.resource) && !s.cache.Has(m.resource) ==>
      r == s.(cache := r.cache) && r.cache == s.cache.Put(m.resource, m.chunk) &&
      r.cache.keys == s.cache.keys + [m.resource] && r.cache.Size() == s.cache.Size() + 1 &&
      r.cache.Get(m.resource) == m.chunk
    ensures m.Offer? && s.currentUrl != Some(m.resource) && s.cache.Has(m.resource) ==> r == s
  {
    var resource := m.resource;
    if IsReq(m) && s.cache.Has(resource) then
      s.(sent := s.sent + [Sent(s.channel, Offer(resource, s.cache.Get(resource)))])
    else if IsOffer(m) && s.currentUrl == Some(resource) then
      SendToPlayer(ClearTimeout(s), m.chunk)
    else if IsOffer(m) && !s.cache.Has(resource) && s.currentUrl != Some(resource) then
      s.(cache := s.cache.Put(resource, m.chunk))
    else
      s
  }

  /** `onConnect` (html/js/BemTV.js:90-93): the swarm count goes up by one; nothing else changes. */
  function OnConnect(s: State, peer: PeerId): (r: State)
    ensures r.swarmSize == s.swarmSize + 1
    ensures r.(swarmSize := s.swarmSize) == s
  {
    s.(swarmSize := s.swarmSize + 1)
  }

  /** `onDisconnect` (html/js/BemTV.js:85-88): the swarm count goes down by one, with no floor at zero. */
  function OnDisconnect(s: State, peer: PeerId): (r: State)
    ensures r.swarmSize == s.swarmSize - 1
    ensures r.(swarmSize := s.swarmSize) == s
  {
    s.(swarmSize := s.swarmSize - 1)
  }

  /** The effect of `onOpen` (html/js/BemTV.js:46-50): the newly opened channel becomes the one messages go out on. */
  function OnOpen(s: State, peer: PeerId): (r: State)
    ensures r.channel == Some(peer)
    ensures r.(channel := s.channel) == s
  {
    s.(channel := Some(peer))
  }

  /**
   * An armed timer fires (html/js/BemTV.js:117): it is disarmed and asks the
   * CDN for the url it captured when armed. `requestTimeout` still holds the
   * last handle.
   */
  function OnTimeout(s: State, t: TimerId): (r: State)
    requires Valid(s) && t in s.timers
    ensures Valid(r)
    ensures r.timers == s.timers - {t}
    ensures r.fetches == s.fetches + [s.timers[t]] && r.inFlight == s.inFlight + multiset{s.timers[t]}
    ensures r.(timers := s.timers, fetches := s.fetches, inFlight := s.inFlight) == s
  {
    GetFromCDN(s.(timers := s.timers - {t}), s.timers[t])
  }

  /**
   * A CDN request for `url` completes with `data` and runs `readBytes`
   * (html/js/BemTV.js:125-129): the chunk is delivered and stored under the
   * key of whatever `currentUrl` is now, not necessarily `url`.
   */
  function ReadBytes(s: State, url: string, data: Chunk): (r: State)
    requires Valid(s) && url in s.inFlight
    ensures Valid(r)
    ensures r.inFlight == s.inFlight - multiset{url}
    ensures r.delivered == s.delivered + [data] && r.currentUrl == None
    ensures r.cache == s.cache.Store(KeyOf(s.currentUrl), data)
    ensures r.(inFlight := s.inFlight, delivered := s.delivered, currentUrl := s.currentUrl, cache := s.cache) == s
  {
    SendToPlayer(s.(inFlight := s.inFlight - multiset{url}), data)
  }
}
