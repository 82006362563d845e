# Bridge `/builder` pipeline and compliance `/tx_status` decision, in Dafny

This project models two request handlers of the Stellar bridge and compliance
servers.

- **`/builder`** (bridge server) turns a JSON request into a signed transaction
  envelope. The request has a source account, an optional sequence number, a
  list of operations and a list of signer seeds. The pipeline runs in a fixed
  order:
  - **Process** (`Bridge.Process`) decodes each operation's raw body into the
    variant its type tag names. It writes the result in place into the shared
    operations array and stops at the first failure.
  - **Validate** (`Bridge.Validate`) checks the source account, then the
    signers, then each body, and returns the first error only.
  - **Sequence resolution** (`BuilderHandler.ResolveSequence`) uses the
    supplied decimal `uint64` as it is. When none is supplied, it uses the
    ledger's sequence for the account plus one.
  - **Assembly** builds the mutator list: source account, sequence and network,
    then one mutator per operation. The ledger SDK then builds, signs and
    base64-encodes the transaction.
- **`/tx_status`** (compliance server) reports a transaction's status. When a
  status callback is configured, it asks that callback with the transaction id
  set in the query.

Modules:
- `Protocols` (protocols.dfy): shared `Option`, `Result` and error responses.
- `Strconv` (strconv.dfy): Go's `strconv.Itoa` and `strconv.ParseUint(s, 10, 64)`,
  including the value ParseUint returns alongside an error.
- `Bridge` (builder.dfy): builder.go.
- `BuilderHandler` (builder_handler.dfy): request_handler_builder.go.
- `TxStatus` (tx_status.dfy): request_handler_tx_status.go.

Code whose source is not part of this model enters as total functions held in
collaborator records, passed as parameters:
- `Bridge.Externals`: JSON decoding of a raw body, `IsValidAccountID`,
  `IsValidSecret` and each body's own `Validate`.
- `BuilderHandler.Ledger`: `LoadAccount`.
- `BuilderHandler.Sdk`: transaction build, sign and base64.
- `TxStatus.Collaborators`: URL parsing, the HTTP GET, JSON decoding and
  encoding.

`ToTransactionMutator` is kept symbolic: `OperationMutator(b)` stands for the
mutator that body `b` returns. Each handler's outcome also records its
outbound calls, so "no ledger query" and "no outbound request" can be stated:
the accounts loaded for `/builder`, and the callback URLs requested for
`/tx_status`.

Behaviour the model keeps exactly as written:
- The account load at request_handler_builder.go:46 declares a new `err` with
  `:=` inside the `if`. The check at line 61 therefore never sees a failed
  parse of the ledger's sequence. Such a request goes on with ParseUint's
  error value and no increment: 0 on a syntax error, 2^64 - 1 on overflow
  (`BuilderHandler.UnparsableLedgerSequenceUsed`).
- N + 1 is `uint64` arithmetic, so a ledger sequence of 2^64 - 1 gives 0.
- An empty operation list is accepted by both Process and Validate; there is
  no non-empty check.
- The code answers `InternalServerError`, not "unknown", for:
  - an unparsable callback URL;
  - a transport failure;
  - an unreadable body;
  - an undecodable 200 body.

## Model

| member | source | states |
|---|---|---|
| Strconv.AddUint64 | bridge/internal/handlers/request_handler_builder.go:55 | uint64 `+` equals the exact sum when it fits and wraps modulo 2^64 otherwise |
| Strconv.Itoa | bridge/internal/protocols/bridge/builder.go:100 | `strconv.Itoa` gives a non-empty canonical digit string (no leading zero) denoting the index |
| Strconv.ParseUintCases | bridge/internal/handlers/request_handler_builder.go:52 | `ParseUint(s,10,64)` in full: empty → (0, syntax); digit prefix overflowing → (2^64-1, range), even with a later non-digit; other non-digit → (0, syntax); otherwise the decimal value |
| Strconv.ParseUintAccepts | bridge/internal/handlers/request_handler_builder.go:58 | ParseUint succeeds exactly on non-empty all-digit strings whose value fits a uint64, and returns that value |
| Strconv.ParseUintItoa | bridge/internal/protocols/bridge/builder.go:100 | parsing the decimal spelling of any uint64 gives it back, with no error |
| Bridge.ParseOperationType | bridge/internal/protocols/bridge/builder.go:14-37 | a tag maps to a type only if that type's tag is exactly the string; it maps to none exactly when none of the eleven tags equals it |
| Bridge.TypeFieldIndex | bridge/internal/protocols/bridge/builder.go:100 | the path `operations[i][type]` has the fixed frame, and the index parses back out of it |
| Bridge.TypeFieldNotBodyField | bridge/internal/protocols/bridge/builder.go:100-104 | a type-error path never equals a body-error path |
| Bridge.UnknownTypeRejected | bridge/internal/protocols/bridge/builder.go:99-100 | an operation fails with `InvalidParameter("operations[i][type]", tag, "Invalid operation type.")` exactly when its tag is none of the eleven |
| Bridge.KnownTypeOutcomes | bridge/internal/protocols/bridge/builder.go:53-105 | for a known tag, an operation resolves iff its body decodes into the tag's body type; otherwise it fails with `InvalidParameter("operations[i][body]", "", "Operation is invalid.")` |
| Bridge.DecodedBodyMatchesTag | bridge/internal/protocols/bridge/builder.go:53-98 | a resolved body is the variant for its tag and carries the decoded fields |
| Bridge.PassiveOfferForced | bridge/internal/protocols/bridge/builder.go:66-74 | `create_passive_offer` always yields a manage-offer body with PassiveOffer on; `manage_offer` keeps the decoded flag |
| Bridge.FirstUndecodable | bridge/internal/protocols/bridge/builder.go:50-105 | the first index whose operation does not resolve, or the length; every earlier operation resolves |
| Bridge.DispatchOutcome | bridge/internal/protocols/bridge/builder.go:48-111 | Process stops at the first failing index with that operation's error. Earlier operations have `Body` set and keep everything else; that operation and all later ones are untouched; the length is unchanged |
| Bridge.DispatchSucceeds | bridge/internal/protocols/bridge/builder.go:48-111 | Process returns nil iff every operation resolves, and then every body is set; an empty list is accepted |
| Bridge.DispatchRejectsUnknownType | bridge/internal/protocols/bridge/builder.go:99-100 | an unknown tag at index i, behind i resolvable operations, is Process's error, naming index i and the tag |
| Bridge.ProcessedBodies | bridge/internal/protocols/bridge/builder.go:107 | after a successful Process, body i is what operation i decodes to |
| Bridge.Process | bridge/internal/protocols/bridge/builder.go:48-111 | the in-place loop returns the error, and leaves the array, exactly as described by `DispatchOutcome` |
| Bridge.ValidationAccepts | bridge/internal/protocols/bridge/builder.go:114-133 | an invalid source gives `InvalidParameter("source", source, …)`; Validate returns nil iff the source, every signer and every body are valid |
| Bridge.ValidationReportsFirstSigner | bridge/internal/protocols/bridge/builder.go:119-123 | with a valid source, the first invalid signer i gives `InvalidParameter("signers[i]", signer, …)` |
| Bridge.ValidationReportsFirstBody | bridge/internal/protocols/bridge/builder.go:125-130 | with a valid source and signers, the first failing body's own error is returned unchanged |
| Bridge.Validate | bridge/internal/protocols/bridge/builder.go:114-133 | the two-loop scan returns the error of the source → signers → bodies order that the three lemmas above characterise |
| BuilderHandler.SuppliedSequence | bridge/internal/handlers/request_handler_builder.go:57-66 | a supplied sequence is used verbatim when it is a decimal uint64; otherwise `InvalidParameter("sequence_number", value, …)`; no ledger query either way |
| BuilderHandler.LedgerSequenceIncremented | bridge/internal/handlers/request_handler_builder.go:45-56 | with the sequence omitted and a ledger sequence string that ParseUint accepts (leading zeros included) with value N, the sequence is N+1 (2^64-1 wraps to 0), after one load of the source account |
| BuilderHandler.AccountLoadFailure | bridge/internal/handlers/request_handler_builder.go:46-50 | with the sequence omitted, a failed account load is `InternalServerError` |
| BuilderHandler.UnparsableLedgerSequenceUsed | bridge/internal/handlers/request_handler_builder.go:45-61 | with the sequence omitted, an unparsable ledger sequence is not reported: the sequence is 0 (syntax) or 2^64-1 (overflow), not incremented |
| BuilderHandler.MutatorsLayout | bridge/internal/handlers/request_handler_builder.go:68-76 | the mutator list is `[SourceAccount, Sequence, Network]` then each operation's mutator in request order; length 3 + n |
| BuilderHandler.AssembleMutators | bridge/internal/handlers/request_handler_builder.go:68-76 | the append loop produces that mutator list for the processed bodies |
| BuilderHandler.Finish | bridge/internal/handlers/request_handler_builder.go:78-100 | any build, sign or encode failure is `InternalServerError`; otherwise the response carries the encoded envelope |
| BuilderHandler.RejectedBeforeLedger | bridge/internal/handlers/request_handler_builder.go:21-43 | an undecodable body (`InvalidParameter("", "", …)`), a Process error and a Validate error are written as they are, in that stage order, with zero ledger queries |
| BuilderHandler.LedgerQueriedOnlyForOmittedSequence | bridge/internal/handlers/request_handler_builder.go:29-50 | the ledger is queried at most once, for the source, and only after Process and Validate pass with the sequence omitted |
| BuilderHandler.AcceptedRequestOutcome | bridge/internal/handlers/request_handler_builder.go:45-100 | after validation, a resolution error is written as it is; otherwise the response is the SDK's outcome on the mutator list for the resolved sequence |
| BuilderHandler.OmittedSequenceTransaction | bridge/internal/handlers/request_handler_builder.go:45-76 | with the sequence omitted and a ledger sequence string that parses to N, the SDK is handed the source, N+1, the network, then operation i's mutator at 3 + i |
| BuilderHandler.Builder | bridge/internal/handlers/request_handler_builder.go:17-101 | the handler, running Process and Validate on an allocated array, yields exactly the staged outcome the lemmas above describe |
| TxStatus.QueryGet | compliance/handlers/request_handler_tx_status.go:18 | `Query().Get` is the key's first value, or "" when it has none |
| TxStatus.WithId | compliance/handlers/request_handler_tx_status.go:37-39 | the outbound query maps `id` to exactly `[txid]` and keeps every other key and the rest of the URL |
| TxStatus.Encode | compliance/handlers/request_handler_tx_status.go:78-84 | the reply is the given status response exactly when it encodes; an encoding failure is `InternalServerError`; the requests made are unchanged |
| TxStatus.HandlerTxStatus | compliance/handlers/request_handler_tx_status.go:16-85 | a status reply never has an empty status; at most one request is sent, and it carries the incoming non-empty id |
| TxStatus.MissingId | compliance/handlers/request_handler_tx_status.go:18-23 | an empty or absent id, and only that, gives `MissingParameter("id")` with no request sent |
| TxStatus.NoCallbackConfigured | compliance/handlers/request_handler_tx_status.go:26-27 | with no callback configured the status is "unknown" and nothing is sent |
| TxStatus.OutboundRequest | compliance/handlers/request_handler_tx_status.go:30-40 | with a parsed callback URL, exactly one request is sent: to that URL, with `id` set to `[txid]` and every other query key kept |
| TxStatus.CallbackOutcomes | compliance/handlers/request_handler_tx_status.go:30-75 | URL-parse, transport, read and 200-decode failures are `InternalServerError`; any non-200 gives "unknown"; a decoded 200 gives its status, or "unknown" when empty |

## Left out

- TransactionSubmitter, PaymentListener and the database. The entry point constructs and starts them (InitAccount, Listen); their source is not part of this model.
- Process start-up, flag and configuration loading, dependency wiring, routing, middleware and the API-key length check in bridge/main.go. These are wiring.
- JSON decoding of the request and of each body, `IsValidAccountID`, `IsValidSecret`, each body's own `Validate` and `ToTransactionMutator`: their source is not part of this model. They are parameters, or a symbolic mutator.
- The per-variant body types' fields are an abstract name-to-value map, apart from the manage-offer PassiveOffer flag.
- Ledger SDK transaction build, signing and base64 XDR encoding. These are foreign calls, modelled as success or failure.
- Horizon's `LoadAccount`, URL parsing and re-encoding, the HTTP client and reading the response body. These are I/O, modelled as outcome values.
- Logging is left out. This includes the decode error that Process attaches as log data to a body error.
- `server.Write`, the Content-Type header and `BuilderResponse.Marshal` are left out. A handler's result is the response value it would write.
- The panic if a body's `Validate` returned an error other than an `ErrorResponse` is not modelled: such errors are `ErrorResponse` values here.
- Concurrency between requests is left out. Each handler is a function of its inputs.
