# BemTV chunk resolver, modelled in Dafny

BemTV is a peer-assisted video client. The player asks the `BemTV` object for
chunks by URL (`requestResource`). The object delivers a cached copy at once
if it has one. Then it asks the peer swarm (a `req` message plus a 1.5 s timer)
when at least one peer is connected, or the CDN otherwise. When the timer
expires it falls back to the CDN. It answers other peers' requests from its
cache and keeps offers it did not ask for. The cache holds at most
`MAX_CACHE_SIZE = 4` entries and evicts oldest-first, except as noted below.

The project has these parts:

- `cache.dfy` (module `ChunkCache`): the cache object, i.e. the `Object.keys`
  insertion order plus the content map, with `Put` (assignment), `CheckSize`
  (`checkCacheSize`) and the FIFO lemmas.
- `protocol.dfy` (module `Protocol`): the `req`/`offer` messages and the `isReq`/`isOffer` tests.
- `resolver_spec.dfy` (module `ResolverSpec`): the engine's fields and effect logs as a
  value `State`, with one function per reaction; each postcondition states what the reaction does.
- `resolver.dfy` (module `BemTV`): class `Resolver`, whose fields the reactions update in
  place; each method is proved to move `View()` exactly as its `ResolverSpec` function does.
- `properties.dfy` (module `Properties`): event runs and multi-step scenarios (offer
  before timeout, timeout fallback, repeated requests, the quirks listed below).
- `wrappers.dfy`: `Option`, with `None` standing for JavaScript `undefined`.

Effects on the environment are recorded as logs in the state:

- messages sent on `bufferedChannel`, each with the id of the peer whose channel that was;
- CDN requests made, and those still in flight;
- chunks handed to the player.

Timers are explicit: each armed timer has a handle and the URL it captured.
`requestTimeout` holds only the last handle. Timer expiry and CDN completion
are events.

The model follows the code, including where it departs from the intended behaviour (a cache of at most 4 entries, replies to the requesting peer, a swarm count that never goes negative, a request no longer pending once its timer has fired):

- An offer answering a request goes out on `bufferedChannel`, the last channel opened. It
  does not necessarily go to the peer that asked (`OnData`).
- The swarm count has no floor: a leave with no matching connect makes it negative.
- An offer for a resource neither cached nor awaited is cached without the size check. The
  cache can therefore grow past 4 without bound (`RunPushesGrow`). It stays within 4 on any run
  without such offers (`RunCacheBounded`).
- When a timer fires, `requestTimeout` keeps its handle. A new request arms a new timer
  without cancelling the old one. An accepted offer cancels only the last timer, so an
  abandoned request's timer still reaches the CDN (`AbandonedTimerStillFires`).
- `readBytes` stores the chunk under whatever `currentUrl` holds when the fetch completes.
  After a cache hit that key is `undefined`, which JavaScript turns into the property name
  `"undefined"` (`CachedRequestRefetches`). After the player has moved on it is the newer URL
  (`LateCdnAnswerMisfiled`). The newer URL's own answer then lands under `"undefined"`.
- A timer's expiry only asks the CDN; it leaves `currentUrl` in place. An offer for the URL
  that arrives after the timer has fired, but before the CDN answers, therefore still matches:
  it is delivered and cached under the URL, and `currentUrl` is cleared. The CDN answer is
  then delivered a second time and stored under `"undefined"` (`OfferDuringCdnFetch`).
- A cache hit clears `currentUrl`, so asking twice for a cached URL is not suppressed
  (`RepeatedCachedRequestRepeats`). For an uncached URL the second request is suppressed
  (`RepeatedRequestSuppressed`).

## Model

| member | source | states |
|---|---|---|
| `ChunkCache.Cache.Put` | html/js/BemTV.js:133 | assignment keeps the cache well formed; the key maps to the new chunk and every other entry is untouched; existing keys keep their positions; a new key is appended as the newest and the size grows by one exactly when the key was absent; writing back the stored chunk changes nothing |
| `ChunkCache.Cache.CheckSize` | html/js/BemTV.js:139-145 | at or under 4 keys nothing changes; over 4 exactly the earliest-inserted key is removed, every other entry is kept with its chunk, and the order of the rest is preserved |
| `ChunkCache.Cache.Store` | html/js/BemTV.js:133-136 | storing then checking keeps a cache of at most 4 within 4 and retains the stored chunk; an overfull cache never grows; overwriting a present key in a cache within capacity leaves the key order unchanged; storing the chunk already held amounts to the size check alone |
| `ChunkCache.StoreAll` | html/js/BemTV.js:131-145 | any sequence of deliveries into a cache within capacity leaves it within capacity |
| `ChunkCache.SizeIsEntryCount` | html/js/BemTV.js:140-141 | the `Object.keys` length the size check reads equals the number of cached chunks |
| `ChunkCache.StoreAllKeepsNewest` | html/js/BemTV.js:139-145 | after fresh, distinct insertions the cache holds exactly the 4 newest keys in insertion order (pure FIFO, not LRU) |
| `ChunkCache.FifoExample` | html/js/BemTV.js:139-145 | inserting five distinct names A, B, C, D, E into an empty cache evicts A and keeps B, C, D, E |
| `Protocol.Action` | html/js/BemTV.js:9-10 | every message carries one of the two action tags `req` and `offer` |
| `Protocol.IsReq` | html/js/BemTV.js:77-79 | the tag test holds exactly of requests |
| `Protocol.IsOffer` | html/js/BemTV.js:81-83 | the tag test holds exactly of offers, and never of a message `isReq` accepts |
| `ResolverSpec.KeyOf` | html/js/BemTV.js:133 | the cache key written for a defined `currentUrl` is that URL |
| `ResolverSpec.Init` | html/js/BemTV.js:21-29 | the engine starts well formed with an empty cache, no peers, nothing awaited, no timer handle, no channel, empty logs and no CDN request in flight |
| `ResolverSpec.SendToPlayer` | html/js/BemTV.js:131-137 | the chunk is delivered exactly once and `currentUrl` becomes undefined; the cache is the result of storing under `currentUrl`'s key and trimming; a cache of at most 4 stays at most 4 and keeps the chunk; nothing else changes |
| `ResolverSpec.GetFromP2P` | html/js/BemTV.js:113-118 | exactly one `Req(url)` goes out on the current channel; a fresh timer capturing the URL is armed and its handle replaces `requestTimeout`; earlier timers stay armed; nothing else changes |
| `ResolverSpec.GetFromCDN` | html/js/BemTV.js:120-123 | exactly one CDN request for the URL is made; nothing else changes |
| `ResolverSpec.RequestResource` | html/js/BemTV.js:95-111 | a request for the awaited URL changes nothing. Otherwise a cached chunk is delivered, `currentUrl` is cleared and the cache is only trimmed (so an overfull cache loses its oldest key, possibly the URL just served); or else nothing is delivered and the URL is awaited. With a positive swarm count one `Req` is sent and one timer armed, with no CDN request. With a zero or negative count one CDN request is made, with no message and no timer |
| `ResolverSpec.ClearTimeout` | html/js/BemTV.js:63 | only the timer whose handle is in `requestTimeout` is disarmed; with no handle nothing changes |
| `ResolverSpec.OnData` | html/js/BemTV.js:52-75 | a `Req` for a cached resource adds exactly one `Offer` of that resource with the unmodified cached chunk, on the current channel, and changes nothing else. An `Offer` of the awaited resource cancels the last timer and delivers and stores the chunk, sending nothing. An `Offer` of a resource neither cached nor awaited is stored as by plain assignment (appended as the newest key, every other entry kept with its chunk) with no delivery and no trimming, so the size grows by one. Every other message changes nothing. No case touches the swarm count, channel or CDN requests |
| `ResolverSpec.OnConnect` | html/js/BemTV.js:90-93 | the swarm count goes up by exactly one and nothing else changes |
| `ResolverSpec.OnDisconnect` | html/js/BemTV.js:85-88 | the swarm count goes down by exactly one, with no floor, and nothing else changes |
| `ResolverSpec.OnOpen` | html/js/BemTV.js:46-50 | the newly opened channel becomes the one messages are sent on; nothing else changes |
| `ResolverSpec.OnTimeout` | html/js/BemTV.js:117 | the fired timer is disarmed and one CDN request is made for the URL it captured; `requestTimeout` and everything else is unchanged |
| `ResolverSpec.ReadBytes` | html/js/BemTV.js:125-129 | the completed request leaves the in-flight set; the chunk is delivered exactly once and stored under the key of the current `currentUrl`, which then becomes undefined |
| `BemTV.Resolver.constructor` | html/js/BemTV.js:21-29 | the object starts in the initial state |
| `BemTV.Resolver.CheckCacheSize` | html/js/BemTV.js:139-145 | the object's cache becomes `CheckSize` of the old cache; no other field changes |
| `BemTV.Resolver.SendToPlayer` | html/js/BemTV.js:131-137 | the object moves as `ResolverSpec.SendToPlayer` |
| `BemTV.Resolver.GetFromP2P` | html/js/BemTV.js:113-118 | the object moves as `ResolverSpec.GetFromP2P` |
| `BemTV.Resolver.GetFromCDN` | html/js/BemTV.js:120-123 | the object moves as `ResolverSpec.GetFromCDN` |
| `BemTV.Resolver.RequestResource` | html/js/BemTV.js:95-111 | the object moves as `ResolverSpec.RequestResource` |
| `BemTV.Resolver.OnData` | html/js/BemTV.js:52-75 | the object moves as `ResolverSpec.OnData` |
| `BemTV.Resolver.OnConnect` | html/js/BemTV.js:90-93 | the object stays well formed and moves as `ResolverSpec.OnConnect` |
| `BemTV.Resolver.OnDisconnect` | html/js/BemTV.js:85-88 | the object stays well formed and moves as `ResolverSpec.OnDisconnect` |
| `BemTV.Resolver.OnOpen` | html/js/BemTV.js:46-50 | the object stays well formed and moves as `ResolverSpec.OnOpen` |
| `BemTV.Resolver.OnTimeout` | html/js/BemTV.js:117 | the object moves as `ResolverSpec.OnTimeout` |
| `BemTV.Resolver.ReadBytes` | html/js/BemTV.js:125-129 | the object moves as `ResolverSpec.ReadBytes` |
| `Properties.Step` | html/js/BemTV.js:46-137 | every reaction keeps the state well formed |
| `Properties.StepSwarm` | html/js/BemTV.js:85-93 | a reaction changes the swarm count by one on connect, minus one on leave, and not otherwise |
| `Properties.StepCache` | html/js/BemTV.js:52-145 | only an unsolicited offer can take a cache of at most 4 past 4, and such an offer adds exactly one entry |
| `Properties.StepDeliveries` | html/js/BemTV.js:131-137 | no reaction takes back a delivery |
| `Properties.RunSwarmCount` | html/js/BemTV.js:85-93 | after any run the swarm count is the initial count plus connects minus leaves |
| `Properties.RunCacheBounded` | html/js/BemTV.js:131-145 | a cache of at most 4 stays at most 4 over any run with no unsolicited offer |
| `Properties.RunDeliveriesGrow` | html/js/BemTV.js:131-137 | the delivery log of any run extends the initial one |
| `Properties.RunPushesGrow` | html/js/BemTV.js:68-71 | each offer of a run of unsolicited offers adds one cache entry, so the size grows by the length of the run, past 4 and without bound |
| `Properties.ConnectThenDisconnect` | html/js/BemTV.js:85-93 | a connect followed by a leave restores the state |
| `Properties.RepeatedRequestSuppressed` | html/js/BemTV.js:95-111 | requesting an uncached URL twice has the effect of requesting it once |
| `Properties.RepeatedCachedRequestRepeats` | html/js/BemTV.js:95-111 | requesting a cached URL twice, with the cache within capacity and peers present, delivers it twice and sends two requests |
| `Properties.OfferBeforeTimeout` | html/js/BemTV.js:62-66 | for a URL neither cached nor awaited, with peers present and a cache of any size, a matching offer after a swarm request cancels the timer that request armed, leaves earlier timers as they were, delivers and caches the chunk, and makes no CDN request |
| `Properties.TimeoutFallsBackToCdn` | html/js/BemTV.js:117-129 | for a URL neither cached nor awaited, with peers present and a cache of any size, timer expiry asks the CDN once for the URL; the answer is delivered and cached under it; an offer for it arriving after that answer changes nothing |
| `Properties.OfferDuringCdnFetch` | html/js/BemTV.js:62-133 | for a URL neither cached nor awaited, with peers present and the cache within capacity, after timer expiry the URL is still awaited; an offer for it is then delivered, and the CDN answer completing afterwards is delivered as well and stored under "undefined", with one CDN request in all |
| `Properties.CachedRequestRefetches` | html/js/BemTV.js:98-107 | for a cached URL not awaited, with the cache within capacity and no peers, a cache hit is delivered and the CDN is still asked; its answer is delivered again and stored under "undefined" |
| `Properties.LateCdnAnswerMisfiled` | html/js/BemTV.js:125-134 | with no peers, a CDN answer completing after a newer request is delivered and stored under the newer URL |
| `Properties.AbandonedTimerStillFires` | html/js/BemTV.js:117 | the timer of an abandoned request survives an accepted offer for the newer one and later asks the CDN for the abandoned URL |

## Left out

- Room discovery (`discoverMyRoom`, html/js/BemTV.js:39-44): a synchronous HTTP request and JSON parsing.
- Connection setup (`setupPeerConnection`, `quickconnect`, `freeice`, creating the buffered
  channel in `onOpen`): WebRTC plumbing. Only its effect is kept, namely which channel is the
  current outbound one (`OnOpen`).
- The helpers from `Utils.js`, which is not part of this model: message encoding and parsing,
  base64 conversion, HTTP requests, room-name and metric updates. Messages are the `Msg`
  datatype and chunks are opaque strings. Byte counters and the swarm-size display are not kept.
- Messages whose action is neither `req` nor `offer`, that cannot be parsed, or that lack a
  `resource` field are not representable; neither is an `offer` with no `chunk` field. A
  message with an unknown action leaves the state unchanged. What an unparseable one does
  depends on `utils.parseData`, which is not part of this model. An offer with no `chunk`
  that matches `currentUrl` stores `undefined` at html/js/BemTV.js:133 and then throws at
  line 65. A message with no `resource` does not always leave the state unchanged: an offer without one that arrives while
  `currentUrl` is undefined satisfies `undefined == undefined` at html/js/BemTV.js:62, so the
  code delivers its chunk and stores it under `"undefined"`. The model does not capture that case.
- The player (`document.getElementById(...).resourceLoaded`) and `console.log`: a delivery is
  an append to the delivery log, and logging is dropped.
- Real time: the 1.5 s delay is not modelled. A timer's expiry is an event that can come at
  any point while the timer is armed.
- CDN failure: as in the code, a failed request has no handling. The model makes no failure
  event; an in-flight request stays in flight.
- Crashes: sending while `bufferedChannel` is still undefined throws in the code. At
  html/js/BemTV.js:116 this happens before line 117 runs, so no timer is armed. `currentUrl` stays
  `url`, the CDN is never asked, and repeat requests for that URL are suppressed. The model instead
  records the send with no channel and arms the timer (`GetFromP2P`), so its run can still fall back
  to the CDN. In `onData` (line 59) the channel is always defined, since data arrives only on a channel `onOpen` has set.
- JavaScript object quirks that URLs do not trigger. Inherited property names such as
  `"constructor"` make `in` true on an empty object. Integer-like keys are listed by
  `Object.keys` ahead of the others. The model treats the cache as a plain insertion-ordered map.
