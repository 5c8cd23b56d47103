/**
 * The BemTV object of html/js/BemTV.js as a class: its fields are updated in
 * place by the reactions the code registers (peer connect and leave, channel
 * open, incoming data, timer expiry, CDN completion) and by
 * `requestResource`, which the player calls. Each method is proved to move
 * the object exactly as the matching function of ResolverSpec moves its
 * value, so every property proved there holds of the object.
 */
module BemTV {
  import opened Wrappers
  import opened ChunkCache
  import opened Protocol
  import Spec = ResolverSpec

  class Resolver {
    var cacheKeys: seq<string>             // Object.keys(chunksCache), oldest first
    var chunksCache: map<string, Chunk>
    var swarmSize: int
    var currentUrl: Option<string>
    var requestTimeout: Option<Spec.TimerId>
    var timers: map<Spec.TimerId, string>  // armed timers and the url each captured
    var nextTimer: Spec.TimerId
    var bufferedChannel: Option<Spec.PeerId>
    var sent: seq<Spec.Sent>               // what went out on bufferedChannel
    var fetches: seq<string>               // CDN requests made
    var inFlight: multiset<string>         // CDN requests not yet completed
    var delivered: seq<Chunk>              // what resourceLoaded received

    function View(): Spec.State
      reads this
    {
      Spec.State(Cache(cacheKeys, chunksCache), swarmSize, currentUrl, requestTimeout,
                 timers, nextTimer, bufferedChannel, sent, fetches, inFlight, delivered)
    }

    ghost predicate Valid()
      reads this
    {
      Spec.Valid(View())
    }

    /** `_init` (html/js/BemTV.js:21-29): empty cache, no peers, nothing awaited, no channel. */
    constructor ()
      ensures Valid() && View() == Spec.Init()
    {
      cacheKeys, chunksCache := [], map[];
      swarmSize := 0;
      currentUrl := None;
      requestTimeout := None;
      timers, nextTimer := map[], 1;
      bufferedChannel := None;
      sent, fetches, inFlight, delivered := [], [], multiset{}, [];
    }

    /** `checkCacheSize` (html/js/BemTV.js:139-145). */
    method CheckCacheSize()
      requires Valid()
      modifies this
      ensures Valid()
      ensures View() == old(View()).(cache := old(View()).cache.CheckSize())
    {
      if |cacheKeys| > MAX_CACHE_SIZE {
        var first := cacheKeys[0];
        chunksCache := chunksCache - {first};
        cacheKeys := cacheKeys[1..];
      }
    }

    /** `sendToPlayer(data)` (html/js/BemTV.js:131-137). */
    method SendToPlayer(data: Chunk)
      requires Valid()
      modifies this
      ensures Valid()
      ensures View() == Spec.SendToPlayer(old(View()), data)
    {
      var key := Spec.KeyOf(currentUrl);
      if key !in chunksCache {
        cacheKeys := cacheKeys + [key];
      }
      chunksCache := chunksCache[key := data];
      currentUrl := None;
      delivered := delivered + [data];
      CheckCacheSize();
    }

    /** `getFromP2P(url)` (html/js/BemTV.js:113-118). */
    method GetFromP2P(url: string)
      requires Valid()
      modifies this
      ensures Valid()
      ensures View() == Spec.GetFromP2P(old(View()), url)
    {
      sent := sent + [Spec.Sent(bufferedChannel, Req(url))];
      timers := timers[nextTimer := url];
      requestTimeout := Some(nextTimer);
      nextTimer := nextTimer + 1;
    }

    /** `getFromCDN(url)` (html/js/BemTV.js:120-123). */
    method GetFromCDN(url: string)
      requires Valid()
      modifies this
      ensures Valid()
      ensures View() == Spec.GetFromCDN(old(View()), url)
    {
      fetches := fetches + [url];
      inFlight := inFlight + multiset{url};
    }

    /** `requestResource(url)` (html/js/BemTV.js:95-111). */
    method RequestResource(url: string)
      requires Valid()
      modifies this
      ensures Valid()
      ensures View() == Spec.RequestResource(old(View()), url)
    {
      if currentUrl != Some(url) {
        currentUrl := Some(url);
        if url in chunksCache {
          SendToPlayer(chunksCache[url]);
        }
        if swarmSize > 0 {
          GetFromP2P(url);
        } else {
          GetFromCDN(url);
        }
      }
    }

    /** `onData(id, msg)` (html/js/BemTV.js:52-75). */
    method OnData(id: Spec.PeerId, msg: Msg)
      requires Valid()
      modifies this
      ensures Valid()
      ensures View() == Spec.OnData(old(View()), id, msg)
    {
      var resource := msg.resource;
      if IsReq(msg) && resource in chunksCache {
        sent := sent + [Spec.Sent(bufferedChannel, Offer(resource, chunksCache[resource]))];
      } else if IsOffer(msg) && currentUrl == Some(resource) {
        if requestTimeout.Some? {
          timers := timers - {requestTimeout.value};
        }
        SendToPlayer(msg.chunk);
      } else if IsOffer(msg) && resource !in chunksCache && currentUrl != Some(resource) {
        cacheKeys := cacheKeys + [resource];
        chunksCache := chunksCache[resource := msg.chunk];
      }
    }

    /** `onConnect(id)` (html/js/BemTV.js:90-93). */
    method OnConnect(id: Spec.PeerId)
      requires Valid()
      modifies this
      ensures Valid()
      ensures View() == Spec.OnConnect(old(View()), id)
    {
      swarmSize := swarmSize + 1;
    }

    /** `onDisconnect(id)` (html/js/BemTV.js:85-88). */
    method OnDisconnect(id: Spec.PeerId)
      requires Valid()
      modifies this
      ensures Valid()
      ensures View() == Spec.OnDisconnect(old(View()), id)
    {
      swarmSize := swarmSize - 1;
    }

    /** What `onOpen(dc, id)` does to the engine (html/js/BemTV.js:46-50). */
    method OnOpen(id: Spec.PeerId)
      requires Valid()
      modifies this
      ensures Valid()
      ensures View() == Spec.OnOpen(old(View()), id)
    {
      bufferedChannel := Some(id);
    }

    /** The armed timer `t` expires: the callback of html/js/BemTV.js:117 runs. */
    method OnTimeout(t: Spec.TimerId)
      requires Valid() && t in timers
      modifies this
      ensures Valid()
      ensures View() == Spec.OnTimeout(old(View()), t)
    {
      var url := timers[t];
      timers := timers - {t};
      GetFromCDN(url);
    }

    /** The CDN request for `url` completes with `data`: `readBytes` (html/js/BemTV.js:125-129). */
    method ReadBytes(url: string, data: Chunk)
      requires Valid() && url in inFlight
      modifies this
      ensures Valid()
      ensures View() == Spec.ReadBytes(old(View()), url, data)
    {
      inFlight := inFlight - multiset{url};
      SendToPlayer(data);
    }
  }
}
