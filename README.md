# Null payment method: mock-injection dispatch

A model of the null payment plugin of libindy (`libnullpay`). The plugin
answers every payment operation of the host's pluggable payment interface
with canned responses, for integration tests. Each operation kind owns a
FIFO queue of injected (result code, payload) pairs. An invocation first
checks its queue. When a pair is pending, the invocation pops the head and
hands it to the callback, and the real handler is skipped. When nothing is
pending, the operation's real handler answers.

Files:

- `types.dfy` (module `Types`): result codes, responses, how a handler
  completes (`Reply`: at once, or deferred through the ledger builder), and
  the callback type.
- `injections.dfy` (module `Injections`): one queue as a state machine over
  values. `Step` is one atomic queue operation and `Run` replays a script of
  them. The lemmas state the FIFO, clearing and fall-through properties.
- `mocked_handler.dfy` (module `MockedHandlers`): what the `mocked_handler!`
  macro generates for one operation kind. The class `MockedHandler<A>` keeps
  the queue in a `seq` field and has the methods `InjectMock`, `ClearMocks`
  and `HandleMocked`. It is parameterised by the operation's real logic. Each
  method's contract ties the new queue to `Injections.Step`, so the lemmas
  about `Run` describe any sequence of calls on one object. One object
  stands for one operation kind, and so for one independent queue.
- `payment_method.dfy` (module `PaymentMethod`): the real handlers of the
  eleven operations as total functions of their arguments.

The callback is modelled as a function value, `Option<Callback>`.
`HandleMocked` requires it to be present; the source panics when it is
null. The callback receives exactly one pair, which `HandleMocked` returns
as `delivered`. For a delegating handler with an empty queue, `delivered` is
what the builder's continuation later passes to the callback. It also returns, as `status`, what
the entry point returns. That is the callback's own status, except for a
delegating handler with an empty queue, where it is the ledger builder's
dispatch status.

## Model

| member | source | states |
|---|---|---|
| `Injections.Step` | libindy/libnullpay/src/payment_method.rs:22-55 | A callback is invoked exactly when the operation is invoked. An injection appends exactly its pair at the tail and keeps the earlier entries in order. Clearing empties the queue. An invocation on a non-empty queue delivers the head and leaves the tail. On an empty queue it delivers the real handler's response and the queue stays empty. |
| `Injections.Run` | libindy/libnullpay/src/payment_method.rs:30-38 | Any script delivers exactly one response per invocation and none per injection or clear. |
| `Injections.InjectionsAppend` | libindy/libnullpay/src/payment_method.rs:41-47 | A series of injections delivers nothing and appends its pairs to the tail in order. The entries already pending are untouched. |
| `Injections.DispatchesDrainInOrder` | libindy/libnullpay/src/payment_method.rs:30-33 | While enough pairs are pending, k invocations with any arguments receive the first k pending pairs in order. The queue is left with the rest. With sequential atomic steps, this also covers interleaved callers: no pair is lost or duplicated. |
| `Injections.EmptyQueueRunsRealLogic` | libindy/libnullpay/src/payment_method.rs:30-38 | With nothing pending, every invocation receives its real handler's response and the queue stays empty. |
| `Injections.Fifo` | libindy/libnullpay/src/payment_method.rs:19-47 | Start from an empty queue and inject N pairs. The next N invocations receive those pairs in injection order, and invocation N+1 receives the real handler's response. |
| `Injections.CoveredInvocationsIgnoreHandle` | libindy/libnullpay/src/payment_method.rs:30-33 | While the pending pairs cover the invocations, the real handler is never consulted: every choice of real handler gives the same run. |
| `Injections.ClearThenRealLogic` | libindy/libnullpay/src/payment_method.rs:49-55 | After a clear, an invocation with no new injection receives the real handler's response and not a stale mock, whatever was pending before. |
| `Injections.ClearIdempotent` | libindy/libnullpay/src/payment_method.rs:49-55 | Clearing twice behaves like clearing once, whatever script follows. |
| `MockedHandlers.MockedHandler.constructor` | libindy/libnullpay/src/payment_method.rs:18-20 | A queue starts empty (its lazily created default) and is bound to its operation's real handler. |
| `MockedHandlers.MockedHandler.InjectMock` | libindy/libnullpay/src/payment_method.rs:41-47 | The new queue is the old queue with (err, res) appended at the tail. This agrees with `Step`. |
| `MockedHandlers.MockedHandler.ClearMocks` | libindy/libnullpay/src/payment_method.rs:49-55 | The new queue is empty. This agrees with `Step`. |
| `MockedHandlers.MockedHandler.HandleMocked` | libindy/libnullpay/src/payment_method.rs:22-39 | The callback must be present. With a non-empty queue, the head is delivered, the queue becomes its tail, and the callback's status is returned. With an empty queue, the real handler's response is delivered and the queue stays empty. The status returned is then the callback's status for a synchronous handler and the builder's dispatch status for a delegating one. This agrees with `Step`. |
| `PaymentMethod.CreatePaymentAddress` | libindy/libnullpay/src/payment_method.rs:64-68 | Success. The payload is `pay:null:` followed by the 15-character random string, 24 characters in all. |
| `PaymentMethod.CreatePaymentAddressInjective` | libindy/libnullpay/src/payment_method.rs:64-68 | Two addresses are equal exactly when their random strings are equal. The config and the wallet handle play no part. |
| `PaymentMethod.AddRequestFeesEchoesRequest` | libindy/libnullpay/src/payment_method.rs:76-80 | Carries the contract of the echo handler `PaymentMethod.AddRequestFees`: Success with `req_json` unchanged, for every input. No other argument influences the result. |
| `PaymentMethod.ParseResponseWithFeesEchoesResponse` | libindy/libnullpay/src/payment_method.rs:88-92 | Carries the contract of the echo handler `PaymentMethod.ParseResponseWithFees`: Success with `resp_json` unchanged, for every input. Two different inputs give two different results. |
| `PaymentMethod.BuildPaymentReqEchoesOutputs` | libindy/libnullpay/src/payment_method.rs:137-141 | Carries the contract of the echo handler `PaymentMethod.BuildPaymentReq`: Success with `outputs_json` unchanged, for every input. The wallet handle and `inputs_json` play no part. |
| `PaymentMethod.ParsePaymentResponseEchoesResponse` | libindy/libnullpay/src/payment_method.rs:149-153 | Carries the contract of the echo handler `PaymentMethod.ParsePaymentResponse`: Success with `resp_json` unchanged, for every input. Two different inputs give two different results. |
| `PaymentMethod.BuildSetTxnFeesReqEchoesFees` | libindy/libnullpay/src/payment_method.rs:180-184 | Carries the contract of the echo handler `PaymentMethod.BuildSetTxnFeesReq`: Success with `fees_json` unchanged, for every input. The wallet handle plays no part. |
| `PaymentMethod.ParseGetUtxoResponse` | libindy/libnullpay/src/payment_method.rs:119-129 | Success. The payload is a 126-character two-entry UTXO listing made of fixed text, with the first random string at characters 45-59 and the second at characters 108-122. |
| `PaymentMethod.ParseGetUtxoResponseInjective` | libindy/libnullpay/src/payment_method.rs:119-129 | Two listings are equal exactly when both random strings are equal. The response argument plays no part. |
| `PaymentMethod.ParseGetTxnFeesResponse` | libindy/libnullpay/src/payment_method.rs:211-216 | Success with exactly `{"txnType1":1, "txnType2":2, "txnType3":3}`, whatever the input. |
| `PaymentMethod.Delegate` | libindy/libnullpay/src/payment_method.rs:101-110 | The shape the three delegating handlers share. Deferred completion: it returns the status of the ledger builder called with `null_payment_plugin` and 1, and passes on the builder's eventual result unchanged. |
| `PaymentMethod.BuildGetUtxoRequest` | libindy/libnullpay/src/payment_method.rs:100-111 | Deferred completion. It returns the status and passes on the eventual result of the ledger builder called with `null_payment_plugin` and 1. The wallet handle and payment address play no part. |
| `PaymentMethod.BuildMintReq` | libindy/libnullpay/src/payment_method.rs:161-172 | Deferred completion. It returns the status and passes on the eventual result of the ledger builder called with `null_payment_plugin` and 1. |
| `PaymentMethod.BuildGetTxnFeesReq` | libindy/libnullpay/src/payment_method.rs:192-203 | Deferred completion. It returns the status and passes on the eventual result of the ledger builder called with `null_payment_plugin` and 1. |
| `PaymentMethod.UnmockedAddressesAreWellFormed` | libindy/libnullpay/src/payment_method.rs:62-68 | With nothing injected, every address creation in a run delivers `pay:null:` followed by that call's own random string. |
| `PaymentMethod.MockShadowsFeeTableOnce` | libindy/libnullpay/src/payment_method.rs:209-216 | A pair injected for fee parsing replaces the fixed fee table for exactly one invocation. The next invocation gets the table again. |

## Left out

- Locking: the `Mutex` and `lazy_static` around each queue, and the panics when a lock is poisoned. Each queue operation is modelled as one atomic step in a sequential script. Concurrent callers are covered only as some order of those steps. On the mocked path the source calls the callback while it still holds the queue's lock, and on the real path only after releasing it, so a callback that re-enters the same kind's entry points would deadlock only on the mocked path. The model's callback is a pure function and cannot re-enter.
- C-ABI marshalling: raw `*const c_char` pointers, `CStr`/`CString` conversions and `extern fn` callbacks. Payloads are `string`s and the callback is a function value. An injected payload is copied by value, so the queue never aliases the caller's buffer. The rule that a C string stops at its first NUL is not modelled.
- Dangling pointers: a few handlers pass a pointer into a temporary `CString` (`CString::new(..).unwrap().as_ptr()`). This is a memory-lifetime defect with no counterpart in the model. So are the panics of `CString::new` on an interior NUL in a builder result or generated string.
- Randomness: `RandUtils::get_rand_string` is a foreign call. Its output is an argument of type `RandomString` (exactly 15 characters). Its alphabet, and the chance that two calls collide, are not modelled.
- Ledger builder: `Ledger::build_get_txn_request` lives in the host and is not part of this model. It is a parameter that returns a dispatch status and the result its continuation later delivers. The model assumes the continuation runs exactly once. The builder is one fixed function bound into the handler, so the model makes its answer the same on every unmocked call of a delegating kind; the source does not promise this. When it runs, and whether it runs after a refused dispatch, are not modelled.
- Callback status of the delegating handlers: the continuation drops what the callback returns. `HandleMocked` returns the builder's status instead, so that value appears nowhere in the model.
- Integer widths: the command handle and the wallet handle are `i32` in the source and `int` here. They are only passed along, so no arithmetic depends on their width.
- Result codes: the host's `ErrorCode` enumeration is not part of this model. `ErrorCode` has `Success` plus a numbered `Failure` for any other code.
