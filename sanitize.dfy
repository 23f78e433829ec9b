/** Body sanitisation: every string value at the top level of `req.body` is
    replaced by its markup-free form; every other value is left as it is.

    `sanitize-html` with no allowed tags and no allowed attributes is the
    parameter `strip`; nothing is assumed about it. */
module Sanitize {
  import opened Types

  /** `sanitizeInput(data)`. */
  function SanitizeInput(v: Value, strip: string -> string): (r: Value)
    ensures r.Str? <==> v.Str?
    ensures v.Str? ==> r.s == strip(v.s)
    ensures !v.Str? ==> r == v
  {
    if v.Str? then Str(strip(v.s)) else v
  }

  /** The body after the middleware has visited every key. */
  function SanitizeBody(b: Body, strip: string -> string): (r: Body)
    ensures r.Keys == b.Keys
    ensures forall k :: k in b && b[k].Str? ==> r[k] == Str(strip(b[k].s))
    ensures forall k :: k in b && !b[k].Str? ==> r[k] == b[k]
  {
    map k | k in b :: SanitizeInput(b[k], strip)
  }

  /** Sanitising is shallow: strings nested in arrays or objects are not
      visited, and a body without top-level strings comes back unchanged. */
  lemma NoTopLevelStringsUnchanged(b: Body, strip: string -> string)
    requires forall k :: k in b ==> !b[k].Str?
    ensures SanitizeBody(b, strip) == b
  {
  }

  /** The middleware: `Object.keys(req.body).forEach(key => req.body[key] =
      sanitizeInput(req.body[key]))` when `req.body` is set. Keys are taken in
      an unspecified order; the result does not depend on it. */
  method SanitizeRequest(req: Request, strip: string -> string)
    modifies req
    ensures req.body == (if old(req.body).Some? then Some(SanitizeBody(old(req.body).value, strip)) else None)
    ensures req.db == old(req.db) && req.ip == old(req.ip)
  {
    if req.body.Some? {
      ghost var original := req.body.value;
      var pending := req.body.value.Keys;
      while pending != {}
        invariant req.body.Some? && req.body.value.Keys == original.Keys
        invariant pending <= original.Keys
        invariant forall k :: k in original && k !in pending ==>
                    req.body.value[k] == SanitizeInput(original[k], strip)
        invariant forall k :: k in pending ==> req.body.value[k] == original[k]
        invariant req.db == old(req.db) && req.ip == old(req.ip)
        decreases pending
      {
        var key :| key in pending;
        req.body := Some(req.body.value[key := SanitizeInput(req.body.value[key], strip)]);
        pending := pending - {key};
      }
      assert req.body.value == SanitizeBody(original, strip);
    }
  }
}
