/**
  What the seven context-free variants evidently intend: the same code and
  message, with the three ids defaulted to 0 for the request boundary to fill
  in. This is an extension; the server's own constructors do not construct.
*/
module IntendedErrors {
  import opened Wrappers
  import opened Response
  import opened Errors

  /** The call a context-free variant would make with its ids defaulted to 0. */
  function DefaultedCall(k: Kind): BaseCall {
    BaseCall(Code(k), DefaultMessage(k), Some(0), Some(0), Some(0))
  }

  /** Variant `k` constructed with ids defaulted to 0. */
  function ContextFreeError(k: Kind): (e: AlpacaError)
    requires k != NotImplemented
    ensures e.errorClass == Variant(k)
    ensures e.errorNumber == Code(k) && e.errorMessage == DefaultMessage(k)
    ensures e.clientTransactionId == 0 && e.clientId == 0 && e.serverTransactionId == 0
    ensures e.text == Summary(Code(k), DefaultMessage(k))
    ensures ParseSummary(e.text) == Some((Code(k), DefaultMessage(k)))
  {
    Init(Variant(k), DefaultedCall(k)).value
  }

  /** Every variant, context-bound or not, then constructs with its table code. */
  function ConstructIntended(k: Kind, req: CommonRequest): (e: AlpacaError)
    ensures e.errorClass == Variant(k)
    ensures e.errorNumber == Code(k) && e.errorMessage == DefaultMessage(k)
    ensures KindOfCode(e.errorNumber) == Some(k)
    ensures Construct(k, req).Success? ==> Construct(k, req).value == e
  {
    KindOfCodeRoundTrip(k);
    if k == NotImplemented then NotImplementedError(req) else ContextFreeError(k)
  }
}
