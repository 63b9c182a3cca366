/**
  The part of the request record of the `response` module that the error
  taxonomy reads: the caller's client id and client transaction id.
*/
module Response {

  datatype CommonRequest = CommonRequest(ClientID: int, ClientTransactionID: int)
}
