/**
 * The validated subscriber e-mail address. Its parser lives in a module
 * that is not part of this model, so it is represented by what the rest of
 * the core relies on: a validity test, an error text for rejected input,
 * and the guarantee that an accepted address is kept verbatim.
 */
module Domain {
  import opened Wrappers

  /** A validated address; `address` is what `as_ref()` shows. */
  datatype SubscriberEmail = SubscriberEmail(address: string)

  /** The abstract address parser: which strings it accepts and what it says about the others. */
  datatype EmailParser = EmailParser(accepts: string -> bool, reason: string -> string)

  function Parse(parser: EmailParser, raw: string): (r: Result<SubscriberEmail, string>)
    ensures r.Ok? <==> parser.accepts(raw)
    ensures r.Ok? ==> r.value.address == raw
    ensures r.Err? ==> r.error == parser.reason(raw)
  {
    if parser.accepts(raw) then Ok(SubscriberEmail(raw)) else Err(parser.reason(raw))
  }
}
