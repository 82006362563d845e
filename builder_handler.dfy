/** The /builder HTTP handler of the bridge server: decode the request,
    Process, Validate, resolve the sequence number, assemble the mutator list,
    then build, sign and encode the transaction. */
module BuilderHandler {
  import opened Protocols
  import opened Strconv
  import opened Bridge

  /** The account record the ledger returns; only its sequence is read. */
  datatype Account = Account(sequence: string)

  /** The ledger read API: LoadAccount, failing or returning the account. */
  datatype Ledger = Ledger(loadAccount: string -> Option<Account>)

  /** A transaction and a signed envelope as the ledger SDK represents them,
      kept abstract as their encoded bytes. */
  datatype Transaction = Transaction(xdr: Bytes)
  datatype Envelope = Envelope(xdr: Bytes)

  /** A transaction mutator. `OperationMutator(b)` stands for what
      `b.ToTransactionMutator()` returns; that method is not part of this model. */
  datatype Mutator =
    | SourceAccount(address: string)
    | Sequence(number: uint64)
    | Network(passphrase: string)
    | OperationMutator(body: OperationBody)

  /** The SDK steps after assembly, each failing or succeeding. */
  datatype Sdk = Sdk(
    transaction: seq<Mutator> -> Option<Transaction>,
    sign: (Transaction, seq<string>) -> Option<Envelope>,
    base64: Envelope -> Option<string>)

  /** A request body as the JSON decoder yields it, before any processing. */
  datatype DecodedRequest = DecodedRequest(
    source: string,
    sequenceNumber: string,
    operations: seq<Operation>,
    signers: seq<string>)

  /** What the handler writes back. */
  datatype Response = Failed(error: ErrorResponse) | Built(transactionEnvelope: string)

  /** The response, together with the accounts loaded from the ledger on the
      way to it, in order. */
  datatype Outcome = Outcome(response: Response, accountLoads: seq<string>)

  /** The sequence number to use, or the error to write, and the accounts
      loaded from the ledger to find it. */
  datatype Resolution = Resolution(sequence: Result<uint64, ErrorResponse>, accountLoads: seq<string>)

  const SequenceMessage := "Sequence number must be a number"

  /** Sequence resolution as the handler is written. The account's sequence is
      parsed into the `err` that the `:=` of the LoadAccount call declares
      inside the `if`, so the check after the `if` never sees that parse
      error: an unparsable ledger sequence goes on with whatever value
      ParseUint returned, with no increment. */
  function ResolveSequence(source: string, sequenceNumber: string, ledger: Ledger): (r: Resolution) {
    if sequenceNumber == "" then
      match ledger.loadAccount(source)
      case None => Resolution(Err(InternalServerError), [source])
      case Some(account) =>
        var p := ParseUint(account.sequence);
        Resolution(Ok(if p.err.None? then AddUint64(p.value, 1) else p.value), [source])
    else
      var p := ParseUint(sequenceNumber);
      if p.err.Some? then
        Resolution(Err(InvalidParameter("sequence_number", sequenceNumber, SequenceMessage)), [])
      else Resolution(Ok(p.value), [])
  }

  /** A supplied sequence number is used verbatim when it is a decimal uint64,
      and is otherwise rejected as a parameter error carrying it; the ledger
      is not consulted either way. */
  lemma SuppliedSequence(source: string, sequenceNumber: string, ledger: Ledger)
    requires sequenceNumber != ""
    ensures ResolveSequence(source, sequenceNumber, ledger).accountLoads == []
    ensures AllDigits(sequenceNumber) && DecimalValue(sequenceNumber) <= MaxUint64 ==>
      ResolveSequence(source, sequenceNumber, ledger).sequence == Ok(DecimalValue(sequenceNumber))
    ensures !(AllDigits(sequenceNumber) && DecimalValue(sequenceNumber) <= MaxUint64) ==>
      ResolveSequence(source, sequenceNumber, ledger).sequence ==
        Err(InvalidParameter("sequence_number", sequenceNumber, SequenceMessage))
  {
    ParseUintAccepts(sequenceNumber);
  }

  /** With the sequence number omitted and a ledger sequence that parses to
      N, the sequence used is N + 1 in uint64 arithmetic (so 2^64 - 1 wraps
      to 0). Any spelling ParseUint accepts counts, leading zeros included. */
  lemma LedgerSequenceIncremented(source: string, ledger: Ledger)
    requires ledger.loadAccount(source).Some?
    requires var s := ledger.loadAccount(source).value.sequence;
      s != "" && AllDigits(s) && DecimalValue(s) <= MaxUint64
    ensures var n := DecimalValue(ledger.loadAccount(source).value.sequence);
      ResolveSequence(source, "", ledger) ==
        Resolution(Ok(if n == MaxUint64 then 0 else n + 1), [source])
  {
    ParseUintAccepts(ledger.loadAccount(source).value.sequence);
  }

  /** With the sequence number omitted, a failed account load is an internal
      error. */
  lemma AccountLoadFailure(source: string, ledger: Ledger)
    requires ledger.loadAccount(source).None?
    ensures ResolveSequence(source, "", ledger) == Resolution(Err(InternalServerError), [source])
  {
  }

  /** With the sequence number omitted, a ledger sequence that does not parse
      is never reported: a syntax error goes on with 0, an overflowing one
      with 2^64 - 1, and neither is incremented. */
  lemma UnparsableLedgerSequenceUsed(source: string, ledger: Ledger)
    requires ledger.loadAccount(source).Some?
    requires ParseUint(ledger.loadAccount(source).value.sequence).err.Some?
    ensures var s := ledger.loadAccount(source).value.sequence;
      ResolveSequence(source, "", ledger) ==
        Resolution(Ok(if ParseUint(s).err == Some(ErrRange) then MaxUint64 else 0), [source])
  {
    ParseUintCases(ledger.loadAccount(source).value.sequence);
  }

  /** The mutator list after the first `n` operation bodies have been appended
      to the fixed three-mutator prefix. */
  function Mutators(source: string, number: uint64, passphrase: string, bodies: seq<OperationBody>): (ms: seq<Mutator>) {
    if bodies == [] then [SourceAccount(source), Sequence(number), Network(passphrase)]
    else Mutators(source, number, passphrase, bodies[..|bodies| - 1]) + [OperationMutator(bodies[|bodies| - 1])]
  }

  /** The mutator list is the source account, sequence and network mutators,
      followed by one mutator per operation, in request order. */
  lemma {:induction false} MutatorsLayout(source: string, number: uint64, passphrase: string, bodies: seq<OperationBody>)
    ensures var ms := Mutators(source, number, passphrase, bodies);
      |ms| == 3 + |bodies|
      && ms[..3] == [SourceAccount(source), Sequence(number), Network(passphrase)]
      && forall i :: 0 <= i < |bodies| ==> ms[3 + i] == OperationMutator(bodies[i])
  {
    if bodies != [] {
      MutatorsLayout(source, number, passphrase, bodies[..|bodies| - 1]);
    }
  }

  /** The mutator loop of the handler: a three-mutator prefix, then one
      append per processed operation. */
  method AssembleMutators(source: string, number: uint64, passphrase: string, operations: array<Operation>)
    returns (mutators: seq<Mutator>)
    requires forall i :: 0 <= i < operations.Length ==> operations[i].body.Some?
    ensures mutators == Mutators(source, number, passphrase, Bodies(operations[..]))
  {
    mutators := [SourceAccount(source), Sequence(number), Network(passphrase)];
    ghost var bodies := Bodies(operations[..]);
    var i := 0;
    while i < operations.Length
      invariant 0 <= i <= operations.Length
      invariant mutators == Mutators(source, number, passphrase, bodies[..i])
    {
      mutators := mutators + [OperationMutator(operations[i].body.value)];
      i := i + 1;
      assert bodies[..i][..i - 1] == bodies[..i - 1];
    }
    assert bodies[..i] == bodies;
  }

  /** Build, sign and encode: any SDK failure is an internal error, and
      success carries the encoded envelope. */
  function Finish(mutators: seq<Mutator>, signers: seq<string>, sdk: Sdk): (r: Response)
    ensures r.Failed? ==> r.error == InternalServerError
    ensures r.Built? <==>
      sdk.transaction(mutators).Some?
      && sdk.sign(sdk.transaction(mutators).value, signers).Some?
      && sdk.base64(sdk.sign(sdk.transaction(mutators).value, signers).value).Some?
    ensures r.Built? ==>
      r.transactionEnvelope == sdk.base64(sdk.sign(sdk.transaction(mutators).value, signers).value).value
  {
    match sdk.transaction(mutators)
    case None => Failed(InternalServerError)
    case Some(tx) =>
      match sdk.sign(tx, signers)
      case None => Failed(InternalServerError)
      case Some(txe) =>
        match sdk.base64(txe)
        case None => Failed(InternalServerError)
        case Some(txeB64) => Built(txeB64)
  }

  /** What the handler does, stage by stage. */
  function BuilderOutcome(decoded: Option<DecodedRequest>, x: Externals, ledger: Ledger, sdk: Sdk, passphrase: string): (out: Outcome) {
    if decoded.None? then Outcome(Failed(InvalidParameter("", "", "Request body is not a valid JSON")), [])
    else
      var req := decoded.value;
      var d := Dispatch(req.operations, x);
      if d.err.Some? then Outcome(Failed(d.err.value), [])
      else
        var bodies := ProcessedBodies(req.operations, x);
        var v := ValidationError(req.source, req.signers, bodies, x);
        if v.Some? then Outcome(Failed(v.value), [])
        else
          var res := ResolveSequence(req.source, req.sequenceNumber, ledger);
          match res.sequence
          case Err(e) => Outcome(Failed(e), res.accountLoads)
          case Ok(number) =>
            Outcome(Finish(Mutators(req.source, number, passphrase, bodies), req.signers, sdk), res.accountLoads)
  }

  /** An undecodable body, a Process error and a Validate error are each
      written back as they are, and none of them loads an account. */
  lemma RejectedBeforeLedger(decoded: Option<DecodedRequest>, x: Externals, ledger: Ledger, sdk: Sdk, passphrase: string)
    ensures decoded.None? ==>
      BuilderOutcome(decoded, x, ledger, sdk, passphrase) ==
        Outcome(Failed(InvalidParameter("", "", "Request body is not a valid JSON")), [])
    ensures decoded.Some? && Dispatch(decoded.value.operations, x).err.Some? ==>
      BuilderOutcome(decoded, x, ledger, sdk, passphrase) ==
        Outcome(Failed(Dispatch(decoded.value.operations, x).err.value), [])
    ensures decoded.Some? && Dispatch(decoded.value.operations, x).err.None? ==>
      var req := decoded.value;
      var v := ValidationError(req.source, req.signers, ProcessedBodies(req.operations, x), x);
      v.Some? ==> BuilderOutcome(decoded, x, ledger, sdk, passphrase) == Outcome(Failed(v.value), [])
  {
  }

  /** The ledger is queried at most once, for the source account, and only
      when the request passed Process and Validate and omitted the sequence
      number. */
  lemma LedgerQueriedOnlyForOmittedSequence(decoded: Option<DecodedRequest>, x: Externals, ledger: Ledger, sdk: Sdk, passphrase: string)
    ensures var loads := BuilderOutcome(decoded, x, ledger, sdk, passphrase).accountLoads;
      loads != [] ==>
        decoded.Some? && loads == [decoded.value.source] && decoded.value.sequenceNumber == ""
        && Dispatch(decoded.value.operations, x).err.None?
        && ValidationError(decoded.value.source, decoded.value.signers,
                           ProcessedBodies(decoded.value.operations, x), x).None?
  {
  }

  /** A request that passes Process and Validate is answered from its sequence
      resolution: a resolution error as it is, otherwise what the SDK makes of
      the mutator list for the resolved sequence and the processed bodies. */
  lemma AcceptedRequestOutcome(req: DecodedRequest, x: Externals, ledger: Ledger, sdk: Sdk, passphrase: string)
    requires Dispatch(req.operations, x).err.None?
    requires ValidationError(req.source, req.signers, ProcessedBodies(req.operations, x), x).None?
    ensures var out := BuilderOutcome(Some(req), x, ledger, sdk, passphrase);
      var res := ResolveSequence(req.source, req.sequenceNumber, ledger);
      out.accountLoads == res.accountLoads
      && (res.sequence.Err? ==> out.response == Failed(res.sequence.error))
      && (res.sequence.Ok? ==>
            out.response == Finish(Mutators(req.source, res.sequence.value, passphrase,
                                             ProcessedBodies(req.operations, x)), req.signers, sdk))
  {
  }

  /** A request that omits its sequence number, for an account whose ledger
      sequence parses to N: the SDK is handed the source account, N + 1, the
      network, then operation i's mutator at position 3 + i. */
  lemma OmittedSequenceTransaction(req: DecodedRequest, x: Externals, ledger: Ledger, sdk: Sdk, passphrase: string)
    requires req.sequenceNumber == ""
    requires Dispatch(req.operations, x).err.None?
    requires ValidationError(req.source, req.signers, ProcessedBodies(req.operations, x), x).None?
    requires ledger.loadAccount(req.source).Some?
    requires var s := ledger.loadAccount(req.source).value.sequence;
      s != "" && AllDigits(s) && DecimalValue(s) <= MaxUint64
    ensures var n := AddUint64(DecimalValue(ledger.loadAccount(req.source).value.sequence), 1);
      var out := BuilderOutcome(Some(req), x, ledger, sdk, passphrase);
      var ms := Mutators(req.source, n, passphrase, ProcessedBodies(req.operations, x));
      out == Outcome(Finish(ms, req.signers, sdk), [req.source])
      && |ms| == 3 + |req.operations|
      && ms[..3] == [SourceAccount(req.source), Sequence(n), Network(passphrase)]
      && forall i :: 0 <= i < |req.operations| ==>
           ms[3 + i] == OperationMutator(DecodeOperation(req.operations[i], i, x).value)
  {
    var s := ledger.loadAccount(req.source).value.sequence;
    ParseUintAccepts(s);
    MutatorsLayout(req.source, AddUint64(DecimalValue(s), 1), passphrase, ProcessedBodies(req.operations, x));
  }

  /** The handler. The JSON decoder's result is a parameter; the operations
      slice it would allocate is allocated here. */
  method Builder(decoded: Option<DecodedRequest>, x: Externals, ledger: Ledger, sdk: Sdk, passphrase: string)
    returns (out: Outcome)
    ensures out == BuilderOutcome(decoded, x, ledger, sdk, passphrase)
  {
    if decoded.None? {
      return Outcome(Failed(InvalidParameter("", "", "Request body is not a valid JSON")), []);
    }
    var d := decoded.value;
    var operations := new Operation[|d.operations|](i requires 0 <= i < |d.operations| => d.operations[i]);
    assert operations[..] == d.operations;
    var request := BuilderRequest(d.source, d.sequenceNumber, operations, d.signers);

    var err := Process(request, x);
    if err.Some? {
      return Outcome(Failed(err.value), []);
    }
    DispatchSucceeds(d.operations, x);
    assert Bodies(request.operations[..]) == ProcessedBodies(d.operations, x);

    err := Validate(request, x);
    if err.Some? {
      return Outcome(Failed(err.value), []);
    }

    var res := ResolveSequence(request.source, request.sequenceNumber, ledger);
    if res.sequence.Err? {
      return Outcome(Failed(res.sequence.error), res.accountLoads);
    }

    var mutators := AssembleMutators(request.source, res.sequence.value, passphrase, request.operations);
    var response := Finish(mutators, request.signers, sdk);
    return Outcome(response, res.accountLoads);
  }
}
