# Alpaca device-server error taxonomy, in Dafny

This project models `python_alpaca_server/errors.py`, the error taxonomy of an
ASCOM Alpaca device server. `AlpacaError` stores an error number, a message,
a client transaction id, a client id and a server transaction id. It hands
the summary text `"<number> - <message>"` to `Exception`. Eight subclasses
each fix a protocol error code and a default message.

Modules:

- `Wrappers` (`wrappers.dfy`): `Option` and `Result`.
- `Decimal` (`decimal.dfy`): Python's `str(int)`, as used by the f-string of
  the summary, and a parser that reads it back.
- `Response` (`response.dfy`): `CommonRequest`, reduced to the two fields the
  taxonomy reads (`ClientID`, `ClientTransactionID`).
- `Errors` (`errors.dfy`): the variants (`Kind`), their codes and messages,
  the error record, the base constructor and the eight variant constructors.
- `IntendedErrors` (`intended.dfy`): an extension, kept apart. The
  context-free variants are built as they were evidently meant to be, with
  their ids defaulted to 0.

A call of the base constructor is a `BaseCall` record. An id the call does
not supply is `None`. `Errors.Init` is `AlpacaError.__init__`. A complete call
stores its arguments verbatim. An incomplete call fails the way Python does,
with a `TypeError` naming the missing parameters, modelled as
`Failure(MissingArguments(names))`. The default message of
`InvalidValueError` is kept as the source spells it, `"invlaid value"`.

The seven context-free constructors pass only the code and the message to the
base constructor, so they fail (`python_alpaca_server/errors.py:29-61`): as
written they never produce an error value. The model returns `Failure` for
them and does not invent ids.
`NotImplementedError` copies the client transaction id and the client id from
the request and passes a literal 0 as the server transaction id
(`python_alpaca_server/errors.py:25`).

## Model

| member | source | states |
|---|---|---|
| Errors.Code | python_alpaca_server/errors.py:25-61 | each variant's protocol code; every code lies in 0x400..0x40C (1024..1036) |
| Errors.KindOfCode | python_alpaca_server/errors.py:25-61 | a code maps back to the variant whose code it is, and to nothing when no variant has it |
| Errors.KindOfCodeRoundTrip | python_alpaca_server/errors.py:25-61 | every variant's code leads back to that same variant |
| Errors.CodeInjective | python_alpaca_server/errors.py:25-61 | the eight codes are pairwise distinct |
| Errors.DefaultMessage | python_alpaca_server/errors.py:25-61 | each variant's default message, "invlaid value" spelled as in the source; its ensures records only the literals' shape (non-empty, a lower-case letter at each end); DefaultMessageInjective shows they are pairwise distinct |
| Errors.DefaultMessageInjective | python_alpaca_server/errors.py:25-61 | the eight default messages are pairwise distinct |
| Decimal.NatToDecimal | python_alpaca_server/errors.py:19 | the rendering of a natural number is a non-empty string of digits with no leading zero |
| Decimal.IntToDecimal | python_alpaca_server/errors.py:19 | the rendering of an integer starts with '-' exactly when the integer is negative, and the rest is a non-empty digit string with no leading zero |
| Decimal.NatToDecimalRoundTrip | python_alpaca_server/errors.py:19 | the digits of a rendered natural number denote that number |
| Decimal.IntToDecimalRoundTrip | python_alpaca_server/errors.py:19 | parsing the rendering of any integer gives that integer back |
| Decimal.IntToDecimalInjective | python_alpaca_server/errors.py:19 | distinct integers render to distinct strings |
| Errors.Summary | python_alpaca_server/errors.py:19 | the summary text is the decimal rendering of the number as the whole leading run of digits and '-', followed by " - " and the message; SummaryRoundTrip and SummaryInjective show it determines number and message |
| Errors.NumericSpan | python_alpaca_server/errors.py:19 | the longest prefix made of digits and '-' is bounded by the string and stops at the first other character |
| Errors.NumericSpanOfConcat | python_alpaca_server/errors.py:19 | a rendered number followed by a non-numeric character is split off exactly at its end |
| Errors.SummaryRoundTrip | python_alpaca_server/errors.py:19 | the summary text splits back into exactly the error number and the message |
| Errors.SummaryInjective | python_alpaca_server/errors.py:19 | two summary texts are equal only when their numbers and messages are equal |
| Errors.MissingParameters | python_alpaca_server/errors.py:5-12 | the missing parameter names are empty exactly when all three ids are supplied; a call that supplies no id misses client_transaction_id, client_id and server_transaction_id, in that order |
| Errors.Init | python_alpaca_server/errors.py:5-19 | a call with all five arguments stores each one verbatim, records the class and builds the summary text, which parses back to the number and message; a call missing an id fails with the names of the missing parameters |
| Errors.NewAlpacaError | python_alpaca_server/errors.py:4-19 | direct construction of the base class: each field read back equals its argument, the text is Summary of the number and message, and it parses back to them |
| Errors.NotImplementedError | python_alpaca_server/errors.py:22-26 | code 0x400 and message "not implemented" for every request; client transaction id and client id are copied from the request; server transaction id is 0; summary "1024 - not implemented"; its code maps back to NotImplemented |
| Errors.NotImplementedSummary | python_alpaca_server/errors.py:19 | the summary of code 0x400 with "not implemented" is "1024 - not implemented" |
| Errors.RendersNotImplementedCode | python_alpaca_server/errors.py:19 | code 0x400 renders in decimal as "1024" |
| Errors.ContextFreeCall | python_alpaca_server/errors.py:31-61 | the call `super().__init__(code, message)` of a context-free variant: the variant's code and message, no id supplied, so the three id parameters are missing |
| Errors.InvalidValueError | python_alpaca_server/errors.py:29-31 | construction fails, missing client_transaction_id, client_id and server_transaction_id |
| Errors.ValueNotSetError | python_alpaca_server/errors.py:34-36 | construction fails, missing the three id parameters |
| Errors.NotConnectedError | python_alpaca_server/errors.py:39-41 | construction fails, missing the three id parameters |
| Errors.InvalidWhileParkedError | python_alpaca_server/errors.py:44-46 | construction fails, missing the three id parameters |
| Errors.InvalidWhileSlavedError | python_alpaca_server/errors.py:49-51 | construction fails, missing the three id parameters |
| Errors.InvalidOperationError | python_alpaca_server/errors.py:54-56 | construction fails, missing the three id parameters |
| Errors.ActionNotImplementedError | python_alpaca_server/errors.py:59-61 | construction fails, missing the three id parameters |
| Errors.Construct | python_alpaca_server/errors.py:22-61 | constructing a variant succeeds exactly for NotImplemented, with that variant's class, code and message; every other variant fails, missing the three id parameters |
| Errors.NotImplementedExample | python_alpaca_server/errors.py:23-26 | a request with client id 7 and client transaction id 42 gives ids (42, 7, 0) |
| IntendedErrors.ContextFreeError | python_alpaca_server/errors.py:29-61 | extension: a context-free variant built with ids defaulted to 0 keeps its class, table code and message, its text is Summary of them, and it parses back to them |
| IntendedErrors.ConstructIntended | python_alpaca_server/errors.py:22-61 | extension: every variant constructs, with its class and table code and message, and the code maps back to the variant; where the server's construction succeeds, it yields the same value |

## Findings

| source | as written | input that shows it | evidently intended | confidence | as-written member | corrected member |
|---|---|---|---|---|---|---|
| python_alpaca_server/errors.py:29-61 | the seven context-free subclasses call the base constructor with 2 of its 5 required arguments | `InvalidValueError()` (any of the seven) fails with a `TypeError` for the three missing ids | construct with the table code and message and with ids defaulted, for the request boundary to fill in | not executed | Errors.Construct | IntendedErrors.ConstructIntended |

## Left out

- Python exception machinery: raising, unwinding and `Exception.__init__` are not modelled. Only the text handed to `Exception` is kept, as the `text` field.
- Errors.Init, Errors.NewAlpacaError, Decimal.IntToDecimal: CPython's limit on int-to-string conversion (`sys.get_int_max_str_digits()`, 4300 digits by default) is not modelled. The model renders every integer, so a base-class call whose error number has more digits than the limit succeeds here, while Python raises `ValueError` while building the summary text. The eight variant codes are far below the limit.
- Type hints are not enforced by Python. The model fixes the fields to `int` and `string`, so a call with, say, a `bool` or a float as the number is not modelled.
- CommonRequest: parsing and construction belong to the `response` module, which is not part of this model. Only its two id fields are modelled.
- Reassigning fields of an error after construction is not modelled; errors are values.
- Errors.InvalidValueError and the other six context-free constructors: the exact wording of Python's `TypeError` message is not modelled, only the list of missing parameter names.
- HTTP routing, the JSON error envelope and the backfilling of ids at the request boundary are not in this file and are not modelled.
- A caller-supplied message override is not offered by the source constructors and is not modelled.
