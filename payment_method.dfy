/** The real logic of the null payment method's operations. Each handler is a
    total function of its arguments: none validates its input, and each either
    echoes one argument, returns a fixed literal, fills a literal with random
    strings, or delegates to the host's ledger request builder. */
module PaymentMethod {
  import opened Types
  import Injections

  /** The length of every random filler string. */
  const RandomLength := 15

  /** A random string as the host's random generator produces it. The
      generator itself is not modelled: its output is an argument. */
  type RandomString = s: string | |s| == RandomLength witness "000000000000000"

  const AddressPrefix := "pay:null:"
  const TxnFeesLiteral := "{\"txnType1\":1, \"txnType2\":2, \"txnType3\":3}"
  const UtxoHead := "[{\"input\":\"pov:null:1\", \"amount\":1, \"extra\":\""
  const UtxoMiddle := "\"}, {\"input\":\"pov:null:2\", \"amount\":2, \"extra\":\""
  const UtxoTail := "\"}]"

  /** The submitter identity and sequence number every delegating handler
      passes to the ledger builder. */
  const SubmitterDid := "null_payment_plugin"
  const SeqNo := 1

  /** The host's request builder for a get-transaction request: it reports a
      dispatch status at once and, through its continuation, a result code and
      a request later. */
  type LedgerBuilder = (string, int) -> (ErrorCode, Response)

  // The arguments of each operation, wallet and command handles included
  // (the command handle travels separately, with the callback).

  datatype CreatePaymentAddressArgs = CreatePaymentAddressArgs(config: string, walletHandle: int, rand: RandomString)
  datatype AddRequestFeesArgs = AddRequestFeesArgs(walletHandle: int, reqJson: string, inputsJson: string, outputsJson: string)
  datatype ParseResponseWithFeesArgs = ParseResponseWithFeesArgs(respJson: string)
  datatype BuildGetUtxoRequestArgs = BuildGetUtxoRequestArgs(walletHandle: int, paymentAddress: string)
  datatype ParseGetUtxoResponseArgs = ParseGetUtxoResponseArgs(respJson: string, extra1: RandomString, extra2: RandomString)
  datatype BuildPaymentReqArgs = BuildPaymentReqArgs(walletHandle: int, inputsJson: string, outputsJson: string)
  datatype ParsePaymentResponseArgs = ParsePaymentResponseArgs(respJson: string)
  datatype BuildMintReqArgs = BuildMintReqArgs(walletHandle: int, outputsJson: string)
  datatype BuildSetTxnFeesReqArgs = BuildSetTxnFeesReqArgs(walletHandle: int, feesJson: string)
  datatype BuildGetTxnFeesReqArgs = BuildGetTxnFeesReqArgs(walletHandle: int)
  datatype ParseGetTxnFeesResponseArgs = ParseGetTxnFeesResponseArgs(respJson: string)

  /** A new payment address: the fixed prefix followed by the random string. */
  function CreatePaymentAddress(a: CreatePaymentAddressArgs): (r: Reply)
    ensures r.Immediate? && r.response.err == Success
    ensures |r.response.payload| == |AddressPrefix| + RandomLength == 24
    ensures r.response.payload[..|AddressPrefix|] == AddressPrefix
    ensures r.response.payload[|AddressPrefix|..] == a.rand
  {
    Immediate(Response(Success, AddressPrefix + a.rand))
  }

  /** Addresses differ exactly when their random parts do; config and wallet
      play no part. */
  lemma CreatePaymentAddressInjective(a: CreatePaymentAddressArgs, b: CreatePaymentAddressArgs)
    ensures CreatePaymentAddress(a) == CreatePaymentAddress(b) <==> a.rand == b.rand
  {
  }

  /** Echoes the request. */
  function AddRequestFees(a: AddRequestFeesArgs): (r: Reply)
  {
    Immediate(Response(Success, a.reqJson))
  }

  /** Echoes the response. */
  function ParseResponseWithFees(a: ParseResponseWithFeesArgs): (r: Reply)
  {
    Immediate(Response(Success, a.respJson))
  }

  /** Echoes the outputs. */
  function BuildPaymentReq(a: BuildPaymentReqArgs): (r: Reply)
  {
    Immediate(Response(Success, a.outputsJson))
  }

  /** Echoes the response. */
  function ParsePaymentResponse(a: ParsePaymentResponseArgs): (r: Reply)
  {
    Immediate(Response(Success, a.respJson))
  }

  /** Echoes the fees. */
  function BuildSetTxnFeesReq(a: BuildSetTxnFeesReqArgs): (r: Reply)
  {
    Immediate(Response(Success, a.feesJson))
  }

  /** Success with the request unchanged, for every input; the other arguments
      never reach the payload, and two calls whose requests differ get different payloads. */
  lemma AddRequestFeesEchoesRequest(x: AddRequestFeesArgs, y: AddRequestFeesArgs)
    ensures AddRequestFees(x) == Immediate(Response(Success, x.reqJson))
    ensures AddRequestFees(x) == AddRequestFees(y) <==> x.reqJson == y.reqJson
  {
  }

  /** Success with the response unchanged, for every input; the other arguments
      never reach the payload, and two calls whose responses differ get different payloads. */
  lemma ParseResponseWithFeesEchoesResponse(x: ParseResponseWithFeesArgs, y: ParseResponseWithFeesArgs)
    ensures ParseResponseWithFees(x) == Immediate(Response(Success, x.respJson))
    ensures ParseResponseWithFees(x) == ParseResponseWithFees(y) <==> x.respJson == y.respJson
  {
  }

  /** Success with the outputs unchanged, for every input; the other arguments
      never reach the payload, and two calls whose outputs differ get different payloads. */
  lemma BuildPaymentReqEchoesOutputs(x: BuildPaymentReqArgs, y: BuildPaymentReqArgs)
    ensures BuildPaymentReq(x) == Immediate(Response(Success, x.outputsJson))
    ensures BuildPaymentReq(x) == BuildPaymentReq(y) <==> x.outputsJson == y.outputsJson
  {
  }

  /** Success with the response unchanged, for every input; the other arguments
      never reach the payload, and two calls whose responses differ get different payloads. */
  lemma ParsePaymentResponseEchoesResponse(x: ParsePaymentResponseArgs, y: ParsePaymentResponseArgs)
    ensures ParsePaymentResponse(x) == Immediate(Response(Success, x.respJson))
    ensures ParsePaymentResponse(x) == ParsePaymentResponse(y) <==> x.respJson == y.respJson
  {
  }

  /** Success with the fees unchanged, for every input; the other arguments
      never reach the payload, and two calls whose fees differ get different payloads. */
  lemma BuildSetTxnFeesReqEchoesFees(x: BuildSetTxnFeesReqArgs, y: BuildSetTxnFeesReqArgs)
    ensures BuildSetTxnFeesReq(x) == Immediate(Response(Success, x.feesJson))
    ensures BuildSetTxnFeesReq(x) == BuildSetTxnFeesReq(y) <==> x.feesJson == y.feesJson
  {
  }

  /** A UTXO listing of two entries whose `extra` fields are the random strings. */
  function ParseGetUtxoResponse(a: ParseGetUtxoResponseArgs): (r: Reply)
    ensures r.Immediate? && r.response.err == Success
    ensures |r.response.payload| == 126
    ensures r.response.payload[..45] == UtxoHead
    ensures r.response.payload[45..60] == a.extra1
    ensures r.response.payload[60..108] == UtxoMiddle
    ensures r.response.payload[108..123] == a.extra2
    ensures r.response.payload[123..] == UtxoTail
  {
    Immediate(Response(Success, UtxoHead + a.extra1 + UtxoMiddle + a.extra2 + UtxoTail))
  }

  /** Two listings are equal exactly when both random strings are; the
      response argument plays no part. */
  lemma ParseGetUtxoResponseInjective(a: ParseGetUtxoResponseArgs, b: ParseGetUtxoResponseArgs)
    ensures ParseGetUtxoResponse(a) == ParseGetUtxoResponse(b) <==> a.extra1 == b.extra1 && a.extra2 == b.extra2
  {
  }

  /** The fixed fee table, whatever the response. */
  function ParseGetTxnFeesResponse(a: ParseGetTxnFeesResponseArgs): (r: Reply)
    ensures r.Immediate? && r.response.err == Success
    ensures r.response.payload == "{\"txnType1\":1, \"txnType2\":2, \"txnType3\":3}"
  {
    Immediate(Response(Success, TxnFeesLiteral))
  }

  /** What the three delegating handlers share: call the builder with the
      fixed submitter and sequence number, return its status at once and pass
      its eventual result on unchanged. */
  function Delegate(ledger: LedgerBuilder): (r: Reply)
    ensures r.Deferred? && (r.accepted, r.response) == ledger("null_payment_plugin", 1)
  {
    var (accepted, response) := ledger(SubmitterDid, SeqNo);
    Deferred(accepted, response)
  }

  function BuildGetUtxoRequest(ledger: LedgerBuilder, a: BuildGetUtxoRequestArgs): (r: Reply)
    ensures r.Deferred? && (r.accepted, r.response) == ledger("null_payment_plugin", 1)
  {
    Delegate(ledger)
  }

  function BuildMintReq(ledger: LedgerBuilder, a: BuildMintReqArgs): (r: Reply)
    ensures r.Deferred? && (r.accepted, r.response) == ledger("null_payment_plugin", 1)
  {
    Delegate(ledger)
  }

  function BuildGetTxnFeesReq(ledger: LedgerBuilder, a: BuildGetTxnFeesReqArgs): (r: Reply)
    ensures r.Deferred? && (r.accepted, r.response) == ledger("null_payment_plugin", 1)
  {
    Delegate(ledger)
  }

  /** With nothing injected, a run of address creations delivers, call by
      call, the prefix followed by that call's random string. */
  lemma {:induction false} UnmockedAddressesAreWellFormed(calls: seq<CreatePaymentAddressArgs>)
    ensures var t := Injections.Run([], CreatePaymentAddress, Injections.Invoked(calls));
      && |t.delivered| == |calls|
      && forall i :: 0 <= i < |calls| ==>
           t.delivered[i] == Response(Success, "pay:null:" + calls[i].rand)
  {
    Injections.EmptyQueueRunsRealLogic(CreatePaymentAddress, calls);
  }

  /** A mock injected for fee parsing shadows the fixed fee table for exactly
      one invocation; the next one sees the table again. */
  lemma MockShadowsFeeTableOnce(err: ErrorCode, res: string, first: ParseGetTxnFeesResponseArgs,
                                second: ParseGetTxnFeesResponseArgs)
    ensures Injections.Run([], ParseGetTxnFeesResponse,
                           [Injections.InjectMock(err, res), Injections.HandleMocked(first), Injections.HandleMocked(second)]).delivered
         == [Response(err, res), Response(Success, TxnFeesLiteral)]
  {
    var x := Response(err, res);
    Injections.Fifo(ParseGetTxnFeesResponse, [x], [first], second);
    assert Injections.Injected<ParseGetTxnFeesResponseArgs>([x]) + Injections.Invoked([first]) + [Injections.HandleMocked(second)]
        == [Injections.InjectMock(err, res), Injections.HandleMocked(first), Injections.HandleMocked(second)];
  }
}
