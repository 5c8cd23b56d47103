/**
 * The peer protocol of html/js/BemTV.js: a message is a request for a
 * resource or an offer carrying its chunk, told apart by its action tag.
 */
module Protocol {
  import opened ChunkCache

  /** Action tags (html/js/BemTV.js:9-10). */
  const CHUNK_REQ: string := "req"
  const CHUNK_OFFER: string := "offer"

  /** A decoded message: a request never carries a chunk, an offer always does. */
  datatype Msg = Req(resource: string) | Offer(resource: string, chunk: Chunk)

  /** The `action` field the message is sent with. */
  function Action(m: Msg): (a: string)
    ensures a == CHUNK_REQ || a == CHUNK_OFFER
  {
    match m
    case Req(_) => CHUNK_REQ
    case Offer(_, _) => CHUNK_OFFER
  }

  /** `isReq` (html/js/BemTV.js:77-79): the tag test recognises exactly the requests. */
  function IsReq(m: Msg): (b: bool)
    ensures b <==> m.Req?
  {
    Action(m) == CHUNK_REQ
  }

  /** `isOffer` (html/js/BemTV.js:81-83): the tag test recognises exactly the offers. */
  function IsOffer(m: Msg): (b: bool)
    ensures b <==> m.Offer?
    ensures b <==> !IsReq(m)
  {
    Action(m) == CHUNK_OFFER
  }
}
