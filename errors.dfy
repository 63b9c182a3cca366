/**
  The error taxonomy of the Alpaca device server: the base error `AlpacaError`
  with its five fields and its summary text, and the eight variant
  constructors, each fixing a protocol error code and a default message.

  Python's exception machinery is not modelled: constructing an error yields
  a value, and a constructor call that Python rejects with `TypeError` (a
  required argument not supplied) yields `Failure`.
*/
module Errors {
  import opened Wrappers
  import opened Decimal
  import opened Response

  /** The eight variants, one per subclass of `AlpacaError`. */
  datatype Kind =
    | NotImplemented
    | InvalidValue
    | ValueNotSet
    | NotConnected
    | InvalidWhileParked
    | InvalidWhileSlaved
    | InvalidOperation
    | ActionNotImplemented

  /** The protocol error code each variant passes to the base constructor. */
  function Code(k: Kind): (n: int)
    ensures 0x400 <= n <= 0x40C
  {
    match k
    case NotImplemented => 0x400
    case InvalidValue => 0x401
    case ValueNotSet => 0x402
    case NotConnected => 0x407
    case InvalidWhileParked => 0x408
    case InvalidWhileSlaved => 0x409
    case InvalidOperation => 0x40B
    case ActionNotImplemented => 0x40C
  }

  /** The message each variant passes to the base constructor (the one for
      InvalidValue is spelled as the server spells it). The ensures records
      only the shape of the eight literals (non-empty, a lower-case letter at
      each end); distinctness is DefaultMessageInjective. */
  function DefaultMessage(k: Kind): (m: string)
    ensures |m| > 0 && 'a' <= m[0] <= 'z' && 'a' <= m[|m| - 1] <= 'z'
  {
    match k
    case NotImplemented => "not implemented"
    case InvalidValue => "invlaid value"
    case ValueNotSet => "value not set"
    case NotConnected => "not connected"
    case InvalidWhileParked => "invalid while parked"
    case InvalidWhileSlaved => "invalid while slaved"
    case InvalidOperation => "invalid operation"
    case ActionNotImplemented => "action not implemented"
  }

  /** The variant a protocol error code belongs to, if any. */
  function KindOfCode(n: int): (r: Option<Kind>)
    ensures r.Some? ==> Code(r.value) == n
  {
    if n == 0x400 then Some(NotImplemented)
    else if n == 0x401 then Some(InvalidValue)
    else if n == 0x402 then Some(ValueNotSet)
    else if n == 0x407 then Some(NotConnected)
    else if n == 0x408 then Some(InvalidWhileParked)
    else if n == 0x409 then Some(InvalidWhileSlaved)
    else if n == 0x40B then Some(InvalidOperation)
    else if n == 0x40C then Some(ActionNotImplemented)
    else None
  }

  /** Every variant's code leads back to that variant. */
  lemma KindOfCodeRoundTrip(k: Kind)
    ensures KindOfCode(Code(k)) == Some(k)
  {
  }

  /** No two variants share a code. */
  lemma CodeInjective(k1: Kind, k2: Kind)
    ensures Code(k1) == Code(k2) ==> k1 == k2
  {
    KindOfCodeRoundTrip(k1);
    KindOfCodeRoundTrip(k2);
  }

  /** No two variants share a default message. */
  lemma DefaultMessageInjective(k1: Kind, k2: Kind)
    ensures DefaultMessage(k1) == DefaultMessage(k2) ==> k1 == k2
  {
  }

  /** Which class an error value is an instance of: `AlpacaError` itself or
      one of its eight subclasses. */
  datatype ErrorClass = Base | Variant(kind: Kind)

  /**
    An error as the base constructor leaves it: the five stored fields, and
    `text`, the string handed to `Exception.__init__` (what `str()` of the
    error gives).
  */
  datatype AlpacaError = AlpacaError(
    errorClass: ErrorClass,
    errorNumber: int,
    errorMessage: string,
    clientTransactionId: int,
    clientId: int,
    serverTransactionId: int,
    text: string)

  /**
    The summary text `f"{error_number} - {error_message}"`: the rendered
    number is exactly the leading run of digits and '-', and the separator
    and the message follow it.
  */
  function Summary(errorNumber: int, errorMessage: string): (s: string)
    ensures s[..NumericSpan(s)] == IntToDecimal(errorNumber)
    ensures s[NumericSpan(s)..] == " - " + errorMessage
  {
    var d := IntToDecimal(errorNumber);
    NumericSpanOfConcat(d, " - " + errorMessage);
    assert d + " - " + errorMessage == d + (" - " + errorMessage);
    d + " - " + errorMessage
  }

  predicate IsNumeric(c: char) {
    IsDigit(c) || c == '-'
  }

  /** Length of the longest prefix of `s` made of digits and '-'. */
  function NumericSpan(s: string): (k: nat)
    ensures k <= |s|
    ensures forall i :: 0 <= i < k ==> IsNumeric(s[i])
    ensures k < |s| ==> !IsNumeric(s[k])
  {
    if s == [] || !IsNumeric(s[0]) then 0 else 1 + NumericSpan(s[1..])
  }

  /** Splits a summary text back into its number and its message. */
  function ParseSummary(s: string): Option<(int, string)> {
    var k := NumericSpan(s);
    if k + 3 <= |s| && s[k..k + 3] == " - " then
      match ParseInt(s[..k])
      case Some(n) => Some((n, s[k + 3..]))
      case None => None
    else None
  }

  lemma {:induction false} NumericSpanOfConcat(a: string, b: string)
    requires forall i :: 0 <= i < |a| ==> IsNumeric(a[i])
    requires b != [] && !IsNumeric(b[0])
    ensures NumericSpan(a + b) == |a|
    decreases |a|
  {
    if a == [] {
      assert a + b == b;
    } else {
      assert (a + b)[1..] == a[1..] + b;
      NumericSpanOfConcat(a[1..], b);
    }
  }

  /** The summary text determines both the number and the message. */
  lemma SummaryRoundTrip(errorNumber: int, errorMessage: string)
    ensures ParseSummary(Summary(errorNumber, errorMessage)) == Some((errorNumber, errorMessage))
  {
    var s := Summary(errorNumber, errorMessage);
    var k := NumericSpan(s);
    assert s[k..k + 3] == (" - " + errorMessage)[..3];
    assert s[k + 3..] == (" - " + errorMessage)[3..];
    IntToDecimalRoundTrip(errorNumber);
  }

  lemma SummaryInjective(n1: int, m1: string, n2: int, m2: string)
    ensures Summary(n1, m1) == Summary(n2, m2) ==> n1 == n2 && m1 == m2
  {
    SummaryRoundTrip(n1, m1);
    SummaryRoundTrip(n2, m2);
  }

  /** The names of the base constructor's three id parameters, in order. */
  const IdParameters: seq<string> := ["client_transaction_id", "client_id", "server_transaction_id"]

  /** Python's `TypeError` for a call that leaves required parameters out:
      the names of the missing parameters, in declaration order. */
  datatype ConstructionFailure = MissingArguments(names: seq<string>)

  /**
    The arguments a call of the base constructor supplies. Number and message
    are supplied by every call in the source; an id is `None` when the call
    leaves it out.
  */
  datatype BaseCall = BaseCall(
    errorNumber: int,
    errorMessage: string,
    clientTransactionId: Option<int>,
    clientId: Option<int>,
    serverTransactionId: Option<int>)

  predicate Complete(call: BaseCall) {
    call.clientTransactionId.Some? && call.clientId.Some? && call.serverTransactionId.Some?
  }

  /** The names of the parameters a call leaves out, in declaration order. */
  function MissingParameters(call: BaseCall): (names: seq<string>)
    ensures names == [] <==> Complete(call)
    ensures forall i :: 0 <= i < |names| ==> names[i] in IdParameters
    ensures (call.clientTransactionId.None? && call.clientId.None? && call.serverTransactionId.None?)
              ==> names == IdParameters
  {
    (if call.clientTransactionId.None? then [IdParameters[0]] else [])
    + (if call.clientId.None? then [IdParameters[1]] else [])
    + (if call.serverTransactionId.None? then [IdParameters[2]] else [])
  }

  /**
    `AlpacaError.__init__`, run on behalf of `errorClass`: a complete call stores
    its five arguments verbatim and builds the summary text; an incomplete one
    fails before any field is set.
  */
  function Init(errorClass: ErrorClass, call: BaseCall): (r: Result<AlpacaError, ConstructionFailure>)
    ensures r.Success? <==> Complete(call)
    ensures r.Failure? ==> r.error == MissingArguments(MissingParameters(call))
    ensures r.Success? ==>
              && r.value.errorClass == errorClass
              && r.value.errorNumber == call.errorNumber
              && r.value.errorMessage == call.errorMessage
              && Some(r.value.clientTransactionId) == call.clientTransactionId
              && Some(r.value.clientId) == call.clientId
              && Some(r.value.serverTransactionId) == call.serverTransactionId
              && r.value.text == Summary(call.errorNumber, call.errorMessage)
              && ParseSummary(r.value.text) == Some((call.errorNumber, call.errorMessage))
  {
    if Complete(call) then
      SummaryRoundTrip(call.errorNumber, call.errorMessage);
      Success(AlpacaError(
        errorClass,
        call.errorNumber,
        call.errorMessage,
        call.clientTransactionId.value,
        call.clientId.value,
        call.serverTransactionId.value,
        Summary(call.errorNumber, call.errorMessage)))
    else
      Failure(MissingArguments(MissingParameters(call)))
  }

  /** `AlpacaError(...)` called directly with all five arguments. */
  function NewAlpacaError(
    errorNumber: int,
    errorMessage: string,
    clientTransactionId: int,
    clientId: int,
    serverTransactionId: int): (e: AlpacaError)
    ensures e.errorClass == Base
    ensures e.errorNumber == errorNumber && e.errorMessage == errorMessage
    ensures e.clientTransactionId == clientTransactionId
    ensures e.clientId == clientId
    ensures e.serverTransactionId == serverTransactionId
    ensures e.text == Summary(errorNumber, errorMessage)
    ensures ParseSummary(e.text) == Some((errorNumber, errorMessage))
  {
    Init(Base, BaseCall(errorNumber, errorMessage,
                        Some(clientTransactionId), Some(clientId), Some(serverTransactionId))).value
  }

  /**
    `NotImplementedError(req)`: code 0x400 and "not implemented" whatever the
    request, ids taken from the request, server transaction id 0.
  */
  function NotImplementedError(req: CommonRequest): (e: AlpacaError)
    ensures e.errorClass == Variant(NotImplemented)
    ensures e.errorNumber == 0x400 && e.errorMessage == "not implemented"
    ensures e.clientTransactionId == req.ClientTransactionID
    ensures e.clientId == req.ClientID
    ensures e.serverTransactionId == 0
    ensures e.text == "1024 - not implemented"
    ensures KindOfCode(e.errorNumber) == Some(NotImplemented)
  {
    NotImplementedSummary();
    Init(Variant(NotImplemented),
         BaseCall(Code(NotImplemented), DefaultMessage(NotImplemented),
                  Some(req.ClientTransactionID), Some(req.ClientID), Some(0))).value
  }

  /** The call a context-free variant makes: code and message only. */
  function ContextFreeCall(k: Kind): (c: BaseCall)
    ensures c.errorNumber == Code(k) && c.errorMessage == DefaultMessage(k)
    ensures !Complete(c) && MissingParameters(c) == IdParameters
  {
    BaseCall(Code(k), DefaultMessage(k), None, None, None)
  }

  /** `InvalidValueError()`: the base constructor is called without ids. */
  function InvalidValueError(): (r: Result<AlpacaError, ConstructionFailure>)
    ensures r == Failure(MissingArguments(IdParameters))
  {
    Init(Variant(InvalidValue), ContextFreeCall(InvalidValue))
  }

  /** `ValueNotSetError()`: the base constructor is called without ids. */
  function ValueNotSetError(): (r: Result<AlpacaError, ConstructionFailure>)
    ensures r == Failure(MissingArguments(IdParameters))
  {
    Init(Variant(ValueNotSet), ContextFreeCall(ValueNotSet))
  }

  /** `NotConnectedError()`: the base constructor is called without ids. */
  function NotConnectedError(): (r: Result<AlpacaError, ConstructionFailure>)
    ensures r == Failure(MissingArguments(IdParameters))
  {
    Init(Variant(NotConnected), ContextFreeCall(NotConnected))
  }

  /** `InvalidWhileParkedError()`: the base constructor is called without ids. */
  function InvalidWhileParkedError(): (r: Result<AlpacaError, ConstructionFailure>)
    ensures r == Failure(MissingArguments(IdParameters))
  {
    Init(Variant(InvalidWhileParked), ContextFreeCall(InvalidWhileParked))
  }

  /** `InvalidWhileSlavedError()`: the base constructor is called without ids. */
  function InvalidWhileSlavedError(): (r: Result<AlpacaError, ConstructionFailure>)
    ensures r == Failure(MissingArguments(IdParameters))
  {
    Init(Variant(InvalidWhileSlaved), ContextFreeCall(InvalidWhileSlaved))
  }

  /** `InvalidOperationError()`: the base constructor is called without ids. */
  function InvalidOperationError(): (r: Result<AlpacaError, ConstructionFailure>)
    ensures r == Failure(MissingArguments(IdParameters))
  {
    Init(Variant(InvalidOperation), ContextFreeCall(InvalidOperation))
  }

  /** `ActionNotImplemented()`: the base constructor is called without ids.
      The `Error` suffix is deliberate: the name `ActionNotImplemented` is
      the variant's `Kind` constructor in this module. */
  function ActionNotImplementedError(): (r: Result<AlpacaError, ConstructionFailure>)
    ensures r == Failure(MissingArguments(IdParameters))
  {
    Init(Variant(ActionNotImplemented), ContextFreeCall(ActionNotImplemented))
  }

  /**
    Constructing variant `k` the way the server does: `req` is the request
    handed to the constructor, and only NotImplemented takes one.
  */
  function Construct(k: Kind, req: CommonRequest): (r: Result<AlpacaError, ConstructionFailure>)
    ensures r.Success? <==> k == NotImplemented
    ensures r.Success? ==> r.value.errorClass == Variant(k)
                           && r.value.errorNumber == Code(k)
                           && r.value.errorMessage == DefaultMessage(k)
    ensures r.Failure? ==> r.error == MissingArguments(IdParameters)
  {
    match k
    case NotImplemented => Success(NotImplementedError(req))
    case InvalidValue => InvalidValueError()
    case ValueNotSet => ValueNotSetError()
    case NotConnected => NotConnectedError()
    case InvalidWhileParked => InvalidWhileParkedError()
    case InvalidWhileSlaved => InvalidWhileSlavedError()
    case InvalidOperation => InvalidOperationError()
    case ActionNotImplemented => ActionNotImplementedError()
  }

  /** Code 0x400 renders as "1024", so NotImplemented's summary is literal. */
  lemma NotImplementedSummary()
    ensures Summary(0x400, "not implemented") == "1024 - not implemented"
  {
    RendersNotImplementedCode();
    assert "1024" + " - " + "not implemented" == "1024 - not implemented";
  }

  lemma RendersNotImplementedCode()
    ensures IntToDecimal(0x400) == "1024"
  {
    assert NatToDecimal(1) == "1" by {
      assert DigitChar(1) == '1';
    }
    assert NatToDecimal(10) == "10" by {
      assert DigitChar(0) == '0';
    }
    assert NatToDecimal(102) == "102" by {
      assert DigitChar(2) == '2';
    }
    assert NatToDecimal(1024) == "1024" by {
      assert DigitChar(4) == '4';
    }
  }

  /** Request ids 7 / 42 give correlation fields (42, 7, 0). */
  lemma NotImplementedExample()
    ensures var e := NotImplementedError(CommonRequest(7, 42));
            e.clientTransactionId == 42 && e.clientId == 7 && e.serverTransactionId == 0
  {
  }
}
