/** The /builder request of the bridge server: the closed set of operation
    types, the dispatch of each raw operation body to its variant (Process),
    and the fail-fast validation of the whole request (Validate). */
module Bridge {
  import opened Protocols
  import opened Strconv

  /** The eleven operation type tags a request may use. */
  datatype OperationType =
    | CreateAccount | Payment | PathPayment | ManageOffer | CreatePassiveOffer
    | SetOptions | ChangeTrust | AllowTrust | AccountMerge | Inflation | ManageData

  /** The JSON spelling of each operation type. */
  function Tag(t: OperationType): (tag: string) {
    match t
    case CreateAccount => "create_account"
    case Payment => "payment"
    case PathPayment => "path_payment"
    case ManageOffer => "manage_offer"
    case CreatePassiveOffer => "create_passive_offer"
    case SetOptions => "set_options"
    case ChangeTrust => "change_trust"
    case AllowTrust => "allow_trust"
    case AccountMerge => "account_merge"
    case Inflation => "inflation"
    case ManageData => "manage_data"
  }

  /** The `switch operation.Type` of Process: the type a tag names, if any. */
  function ParseOperationType(s: string): (r: Option<OperationType>)
    ensures r.Some? ==> Tag(r.value) == s
    ensures r.None? <==> forall t :: Tag(t) != s
  {
    if s == "create_account" then Some(CreateAccount)
    else if s == "payment" then Some(Payment)
    else if s == "path_payment" then Some(PathPayment)
    else if s == "manage_offer" then Some(ManageOffer)
    else if s == "create_passive_offer" then Some(CreatePassiveOffer)
    else if s == "set_options" then Some(SetOptions)
    else if s == "change_trust" then Some(ChangeTrust)
    else if s == "allow_trust" then Some(AllowTrust)
    else if s == "account_merge" then Some(AccountMerge)
    else if s == "inflation" then Some(Inflation)
    else if s == "manage_data" then Some(ManageData)
    else None
  }

  /** The ten Go body types a raw body is decoded into; create_passive_offer
      shares the manage-offer body type. */
  datatype BodyType =
    | CreateAccountType | PaymentType | PathPaymentType | ManageOfferType
    | SetOptionsType | ChangeTrustType | AllowTrustType | AccountMergeType
    | InflationType | ManageDataType

  function BodyTypeOf(t: OperationType): (bt: BodyType) {
    match t
    case CreateAccount => CreateAccountType
    case Payment => PaymentType
    case PathPayment => PathPaymentType
    case ManageOffer => ManageOfferType
    case CreatePassiveOffer => ManageOfferType
    case SetOptions => SetOptionsType
    case ChangeTrust => ChangeTrustType
    case AllowTrust => AllowTrustType
    case AccountMerge => AccountMergeType
    case Inflation => InflationType
    case ManageData => ManageDataType
  }

  /** The field values of a decoded body. The per-variant body types are not
      part of this model, so their fields are kept as an abstract map. */
  type Fields = map<string, string>

  /** What json.Unmarshal produced for one body type: its fields, and the
      PassiveOffer flag of the manage-offer body (unused by the other types). */
  datatype Decoded = Decoded(fields: Fields, passiveOffer: bool)

  /** A resolved operation body: one variant per Go body type. */
  datatype OperationBody =
    | CreateAccountBody(fields: Fields)
    | PaymentBody(fields: Fields)
    | PathPaymentBody(fields: Fields)
    | ManageOfferBody(fields: Fields, passiveOffer: bool)
    | SetOptionsBody(fields: Fields)
    | ChangeTrustBody(fields: Fields)
    | AllowTrustBody(fields: Fields)
    | AccountMergeBody(fields: Fields)
    | InflationBody(fields: Fields)
    | ManageDataBody(fields: Fields)

  function TypeOfBody(b: OperationBody): (bt: BodyType) {
    match b
    case CreateAccountBody(_) => CreateAccountType
    case PaymentBody(_) => PaymentType
    case PathPaymentBody(_) => PathPaymentType
    case ManageOfferBody(_, _) => ManageOfferType
    case SetOptionsBody(_) => SetOptionsType
    case ChangeTrustBody(_) => ChangeTrustType
    case AllowTrustBody(_) => AllowTrustType
    case AccountMergeBody(_) => AccountMergeType
    case InflationBody(_) => InflationType
    case ManageDataBody(_) => ManageDataType
  }

  /** The body one `case` of Process stores for a decoded value; the
      create_passive_offer case forces PassiveOffer on. */
  function MakeBody(t: OperationType, d: Decoded): (b: OperationBody) {
    match t
    case CreateAccount => CreateAccountBody(d.fields)
    case Payment => PaymentBody(d.fields)
    case PathPayment => PathPaymentBody(d.fields)
    case ManageOffer => ManageOfferBody(d.fields, d.passiveOffer)
    case CreatePassiveOffer => ManageOfferBody(d.fields, true)
    case SetOptions => SetOptionsBody(d.fields)
    case ChangeTrust => ChangeTrustBody(d.fields)
    case AllowTrust => AllowTrustBody(d.fields)
    case AccountMerge => AccountMergeBody(d.fields)
    case Inflation => InflationBody(d.fields)
    case ManageData => ManageDataBody(d.fields)
  }

  /** Code this model does not see, as total functions: JSON decoding of a
      raw body into a body type, the account-ID and secret-seed syntax checks,
      and each body's own Validate. */
  datatype Externals = Externals(
    unmarshal: (BodyType, Bytes) -> Option<Decoded>,
    isValidAccountID: string -> bool,
    isValidSecret: string -> bool,
    validateBody: OperationBody -> Option<ErrorResponse>)

  /** One operation of a request; `body` is nil until Process fills it in. */
  datatype Operation = Operation(opType: string, rawBody: Bytes, body: Option<OperationBody>)

  /** A decoded /builder request. The operations slice's backing array is
      shared by every copy of the request, so it is an array here. */
  datatype BuilderRequest = BuilderRequest(
    source: string,
    sequenceNumber: string,
    operations: array<Operation>,
    signers: seq<string>)

  function TypeField(i: nat): (f: string) {
    "operations[" + Itoa(i) + "][type]"
  }

  function BodyField(i: nat): (f: string) {
    "operations[" + Itoa(i) + "][body]"
  }

  function SignerField(i: nat): (f: string) {
    "signers[" + Itoa(i) + "]"
  }

  /** The field path of a type error names its operation index: the index can
      be read back from the path. */
  lemma TypeFieldIndex(i: nat)
    requires i <= MaxUint64
    ensures var f := TypeField(i);
      |f| > 17 && f[..11] == "operations[" && f[|f| - 7..] == "][type]"
      && ParseUint(f[11..|f| - 7]) == NumParse(i, None)
  {
    var f := TypeField(i);
    assert f[11..|f| - 7] == Itoa(i);
    ParseUintItoa(i);
  }

  /** The outcome of one iteration of Process on operation `op` at index `i`. */
  function DecodeOperation(op: Operation, i: nat, x: Externals): (r: Result<OperationBody, ErrorResponse>) {
    match ParseOperationType(op.opType)
    case None => Err(InvalidParameter(TypeField(i), op.opType, "Invalid operation type."))
    case Some(t) =>
      match x.unmarshal(BodyTypeOf(t), op.rawBody)
      case None => Err(InvalidParameter(BodyField(i), "", "Operation is invalid."))
      case Some(d) => Ok(MakeBody(t, d))
  }

  /** A type error and a body error can never be confused: their field
      paths end differently. */
  lemma TypeFieldNotBodyField(i: nat, j: nat)
    ensures TypeField(i) != BodyField(j)
  {
    var f, g := TypeField(i), BodyField(j);
    assert f[|f| - 5] == 't';
    assert g[|g| - 5] == 'b';
  }

  /** An unknown tag, and only an unknown tag, gives the type error for its
      index, carrying the tag as the rejected value. */
  lemma UnknownTypeRejected(op: Operation, i: nat, x: Externals)
    ensures (forall t :: Tag(t) != op.opType) <==>
      DecodeOperation(op, i, x) == Err(InvalidParameter(TypeField(i), op.opType, "Invalid operation type."))
  {
    TypeFieldNotBodyField(i, i);
  }

  /** For a known tag, the operation resolves exactly when its raw body decodes
      into the tag's body type, and otherwise gives the body error for its
      index, with an empty value. */
  lemma KnownTypeOutcomes(op: Operation, i: nat, x: Externals, t: OperationType)
    requires Tag(t) == op.opType
    ensures DecodeOperation(op, i, x).Ok? <==> x.unmarshal(BodyTypeOf(t), op.rawBody).Some?
    ensures x.unmarshal(BodyTypeOf(t), op.rawBody).None? <==>
      DecodeOperation(op, i, x) == Err(InvalidParameter(BodyField(i), "", "Operation is invalid."))
  {
    assert ParseOperationType(op.opType) == Some(t);
  }

  /** A decoded body always has the body type of its tag. */
  lemma DecodedBodyMatchesTag(op: Operation, i: nat, x: Externals, t: OperationType)
    requires Tag(t) == op.opType && DecodeOperation(op, i, x).Ok?
    ensures TypeOfBody(DecodeOperation(op, i, x).value) == BodyTypeOf(t)
    ensures DecodeOperation(op, i, x).value.fields == x.unmarshal(BodyTypeOf(t), op.rawBody).value.fields
  {
    assert ParseOperationType(op.opType) == Some(t);
  }

  /** create_passive_offer always yields a passive manage-offer body, whatever
      the raw body says; manage_offer keeps the decoded flag. */
  lemma PassiveOfferForced(op: Operation, i: nat, x: Externals)
    requires DecodeOperation(op, i, x).Ok?
    ensures op.opType == "create_passive_offer" ==>
      DecodeOperation(op, i, x).value == ManageOfferBody(x.unmarshal(ManageOfferType, op.rawBody).value.fields, true)
    ensures op.opType == "manage_offer" ==>
      DecodeOperation(op, i, x).value == ManageOfferBody(
        x.unmarshal(ManageOfferType, op.rawBody).value.fields,
        x.unmarshal(ManageOfferType, op.rawBody).value.passiveOffer)
  {
  }

  /** The result of Process: its error, and the operations as it left them. */
  datatype Dispatched = Dispatched(err: Option<ErrorResponse>, ops: seq<Operation>)

  /** The operation as Process leaves it once it has resolved its body. */
  function Resolved(op: Operation, b: OperationBody): (r: Operation) {
    op.(body := Some(b))
  }

  /** Process from index `i` on, over the operations as they stand. */
  function DispatchFrom(ops: seq<Operation>, i: nat, x: Externals): (d: Dispatched)
    requires i <= |ops|
    decreases |ops| - i
  {
    if i == |ops| then Dispatched(None, ops)
    else
      match DecodeOperation(ops[i], i, x)
      case Err(e) => Dispatched(Some(e), ops)
      case Ok(b) => DispatchFrom(ops[i := Resolved(ops[i], b)], i + 1, x)
  }

  /** What Process does to a list of operations. */
  function Dispatch(ops: seq<Operation>, x: Externals): (d: Dispatched) {
    DispatchFrom(ops, 0, x)
  }

  /** The index of the first operation Process cannot resolve, or the length
      of the list when it resolves them all. */
  function FirstUndecodable(ops: seq<Operation>, x: Externals, from: nat): (k: nat)
    requires from <= |ops|
    ensures from <= k <= |ops|
    ensures forall j :: from <= j < k ==> DecodeOperation(ops[j], j, x).Ok?
    ensures k < |ops| ==> DecodeOperation(ops[k], k, x).Err?
    decreases |ops| - from
  {
    if from == |ops| || DecodeOperation(ops[from], from, x).Err? then from
    else FirstUndecodable(ops, x, from + 1)
  }

  lemma {:induction false} DispatchFromOutcome(ops: seq<Operation>, s: seq<Operation>, i: nat, k: nat, x: Externals)
    requires i <= k <= |ops| == |s|
    requires forall j :: 0 <= j < k ==> DecodeOperation(ops[j], j, x).Ok?
    requires k < |ops| ==> DecodeOperation(ops[k], k, x).Err?
    requires forall j :: 0 <= j < i ==> s[j] == Resolved(ops[j], DecodeOperation(ops[j], j, x).value)
    requires forall j :: i <= j < |ops| ==> s[j] == ops[j]
    ensures var d := DispatchFrom(s, i, x);
      |d.ops| == |ops|
      && d.err == (if k == |ops| then None else Some(DecodeOperation(ops[k], k, x).error))
      && (forall j :: 0 <= j < k ==> d.ops[j] == Resolved(ops[j], DecodeOperation(ops[j], j, x).value))
      && (forall j :: k <= j < |ops| ==> d.ops[j] == ops[j])
    decreases |ops| - i
  {
    if i < k {
      var s' := s[i := Resolved(s[i], DecodeOperation(s[i], i, x).value)];
      DispatchFromOutcome(ops, s', i + 1, k, x);
    }
  }

  /** Process stops at the first operation it cannot resolve, with that
      operation's error; every operation before it has its body set (the
      backing array is shared) and keeps its type and raw body; it and every
      later operation are untouched. When there is no such operation the
      error is nil and every body is the variant for its tag. */
  lemma DispatchOutcome(ops: seq<Operation>, x: Externals)
    ensures var k := FirstUndecodable(ops, x, 0);
      var d := Dispatch(ops, x);
      |d.ops| == |ops|
      && d.err == (if k == |ops| then None else Some(DecodeOperation(ops[k], k, x).error))
      && (forall j :: 0 <= j < k ==> d.ops[j] == Resolved(ops[j], DecodeOperation(ops[j], j, x).value))
      && (forall j :: k <= j < |ops| ==> d.ops[j] == ops[j])
  {
    DispatchFromOutcome(ops, ops, 0, FirstUndecodable(ops, x, 0), x);
  }

  /** Process succeeds exactly when every operation resolves, and then sets
      every body. */
  lemma DispatchSucceeds(ops: seq<Operation>, x: Externals)
    ensures Dispatch(ops, x).err.None? <==> forall j :: 0 <= j < |ops| ==> DecodeOperation(ops[j], j, x).Ok?
    ensures Dispatch(ops, x).err.None? ==>
      |Dispatch(ops, x).ops| == |ops| &&
      forall j :: 0 <= j < |ops| ==> Dispatch(ops, x).ops[j].body == Some(DecodeOperation(ops[j], j, x).value)
  {
    DispatchOutcome(ops, x);
  }

  /** The bodies Process resolved, when it resolved them all: body i is what
      operation i decodes to. */
  function ProcessedBodies(ops: seq<Operation>, x: Externals): (bs: seq<OperationBody>)
    requires Dispatch(ops, x).err.None?
    ensures |bs| == |ops|
    ensures forall i :: 0 <= i < |ops| ==> DecodeOperation(ops[i], i, x) == Ok(bs[i])
  {
    DispatchSucceeds(ops, x);
    Bodies(Dispatch(ops, x).ops)
  }

  /** An operation with an unknown tag at index i, behind i resolvable ones,
      makes Process fail with a type error naming index i. */
  lemma DispatchRejectsUnknownType(ops: seq<Operation>, x: Externals, i: nat)
    requires i < |ops| && forall t :: Tag(t) != ops[i].opType
    requires forall j :: 0 <= j < i ==> DecodeOperation(ops[j], j, x).Ok?
    ensures Dispatch(ops, x).err == Some(InvalidParameter(TypeField(i), ops[i].opType, "Invalid operation type."))
  {
    DispatchFromOutcome(ops, ops, 0, i, x);
  }

  /** Process on the request's operations, in place. */
  method Process(r: BuilderRequest, x: Externals) returns (err: Option<ErrorResponse>)
    modifies r.operations
    ensures var d := Dispatch(old(r.operations[..]), x);
      err == d.err && r.operations[..] == d.ops
  {
    var i := 0;
    while i < r.operations.Length
      invariant 0 <= i <= r.operations.Length
      invariant Dispatch(old(r.operations[..]), x) == DispatchFrom(r.operations[..], i, x)
    {
      var operation := r.operations[i];
      var t := ParseOperationType(operation.opType);
      if t.None? {
        return Some(InvalidParameter(TypeField(i), operation.opType, "Invalid operation type."));
      }
      var decoded := x.unmarshal(BodyTypeOf(t.value), operation.rawBody);
      if decoded.None? {
        return Some(InvalidParameter(BodyField(i), "", "Operation is invalid."));
      }
      ghost var before := r.operations[..];
      r.operations[i] := Resolved(operation, MakeBody(t.value, decoded.value));
      assert r.operations[..] == before[i := Resolved(operation, MakeBody(t.value, decoded.value))];
      i := i + 1;
    }
    return None;
  }

  /** The resolved bodies of operations that all have one. */
  function Bodies(ops: seq<Operation>): (bs: seq<OperationBody>)
    requires forall i :: 0 <= i < |ops| ==> ops[i].body.Some?
    ensures |bs| == |ops| && forall i :: 0 <= i < |ops| ==> bs[i] == ops[i].body.value
  {
    seq(|ops|, i requires 0 <= i < |ops| => ops[i].body.value)
  }

  /** The first invalid signer from index `i` on, as an error. */
  function SignersError(signers: seq<string>, i: nat, x: Externals): (e: Option<ErrorResponse>)
    decreases |signers| - i
  {
    if i >= |signers| then None
    else if !x.isValidSecret(signers[i]) then
      Some(InvalidParameter(SignerField(i), signers[i], "Signer must start with `S`."))
    else SignersError(signers, i + 1, x)
  }

  /** The first error a body's own validation reports, from index `i` on. */
  function BodiesError(bodies: seq<OperationBody>, i: nat, x: Externals): (e: Option<ErrorResponse>)
    decreases |bodies| - i
  {
    if i >= |bodies| then None
    else if x.validateBody(bodies[i]).Some? then x.validateBody(bodies[i])
    else BodiesError(bodies, i + 1, x)
  }

  /** What Validate returns: the source, then the signers, then the bodies. */
  function ValidationError(source: string, signers: seq<string>, bodies: seq<OperationBody>, x: Externals): (e: Option<ErrorResponse>) {
    if !x.isValidAccountID(source) then
      Some(InvalidParameter("source", source, "Source parameter must start with `G`."))
    else if SignersError(signers, 0, x).Some? then SignersError(signers, 0, x)
    else BodiesError(bodies, 0, x)
  }

  lemma {:induction false} SignersErrorFirst(signers: seq<string>, i: nat, k: nat, x: Externals)
    requires i <= k <= |signers|
    requires forall j :: i <= j < k ==> x.isValidSecret(signers[j])
    requires k < |signers| ==> !x.isValidSecret(signers[k])
    ensures SignersError(signers, i, x) ==
      if k == |signers| then None
      else Some(InvalidParameter(SignerField(k), signers[k], "Signer must start with `S`."))
    decreases k - i
  {
    if i < k {
      SignersErrorFirst(signers, i + 1, k, x);
    }
  }

  lemma {:induction false} BodiesErrorFirst(bodies: seq<OperationBody>, i: nat, k: nat, x: Externals)
    requires i <= k <= |bodies|
    requires forall j :: i <= j < k ==> x.validateBody(bodies[j]).None?
    requires k < |bodies| ==> x.validateBody(bodies[k]).Some?
    ensures BodiesError(bodies, i, x) == if k == |bodies| then None else x.validateBody(bodies[k])
    decreases k - i
  {
    if i < k {
      BodiesErrorFirst(bodies, i + 1, k, x);
    }
  }

  lemma {:induction false} SignersErrorNone(signers: seq<string>, i: nat, x: Externals)
    requires i <= |signers|
    ensures SignersError(signers, i, x).None? <==> forall j :: i <= j < |signers| ==> x.isValidSecret(signers[j])
    decreases |signers| - i
  {
    if i < |signers| {
      SignersErrorNone(signers, i + 1, x);
    }
  }

  lemma {:induction false} BodiesErrorNone(bodies: seq<OperationBody>, i: nat, x: Externals)
    requires i <= |bodies|
    ensures BodiesError(bodies, i, x).None? <==> forall j :: i <= j < |bodies| ==> x.validateBody(bodies[j]).None?
    decreases |bodies| - i
  {
    if i < |bodies| {
      BodiesErrorNone(bodies, i + 1, x);
    }
  }

  /** An invalid source is reported first, carrying the source; otherwise
      Validate accepts a request exactly when every signer and every body is
      valid too. An empty operation list is no obstacle. */
  lemma ValidationAccepts(source: string, signers: seq<string>, bodies: seq<OperationBody>, x: Externals)
    ensures !x.isValidAccountID(source) ==>
      ValidationError(source, signers, bodies, x) ==
        Some(InvalidParameter("source", source, "Source parameter must start with `G`."))
    ensures ValidationError(source, signers, bodies, x).None? <==>
      x.isValidAccountID(source)
      && (forall i :: 0 <= i < |signers| ==> x.isValidSecret(signers[i]))
      && (forall i :: 0 <= i < |bodies| ==> x.validateBody(bodies[i]).None?)
  {
    SignersErrorNone(signers, 0, x);
    BodiesErrorNone(bodies, 0, x);
  }

  /** With a valid source, the first invalid signer is the one reported. */
  lemma ValidationReportsFirstSigner(source: string, signers: seq<string>, bodies: seq<OperationBody>, x: Externals, k: nat)
    requires x.isValidAccountID(source)
    requires k < |signers| && !x.isValidSecret(signers[k])
    requires forall j :: 0 <= j < k ==> x.isValidSecret(signers[j])
    ensures ValidationError(source, signers, bodies, x) ==
      Some(InvalidParameter(SignerField(k), signers[k], "Signer must start with `S`."))
  {
    SignersErrorFirst(signers, 0, k, x);
  }

  /** With a valid source and valid signers, the first failing body's own
      error is the one reported, unchanged. */
  lemma ValidationReportsFirstBody(source: string, signers: seq<string>, bodies: seq<OperationBody>, x: Externals, k: nat)
    requires x.isValidAccountID(source)
    requires forall j :: 0 <= j < |signers| ==> x.isValidSecret(signers[j])
    requires k < |bodies| && x.validateBody(bodies[k]).Some?
    requires forall j :: 0 <= j < k ==> x.validateBody(bodies[j]).None?
    ensures ValidationError(source, signers, bodies, x) == x.validateBody(bodies[k])
  {
    SignersErrorNone(signers, 0, x);
    BodiesErrorFirst(bodies, 0, k, x);
  }

  /** Validate on a processed request: a read-only scan that stops at the
      first failure. */
  method Validate(r: BuilderRequest, x: Externals) returns (err: Option<ErrorResponse>)
    requires forall i :: 0 <= i < r.operations.Length ==> r.operations[i].body.Some?
    ensures err == ValidationError(r.source, r.signers, Bodies(r.operations[..]), x)
  {
    if !x.isValidAccountID(r.source) {
      return Some(InvalidParameter("source", r.source, "Source parameter must start with `G`."));
    }
    var i := 0;
    while i < |r.signers|
      invariant 0 <= i <= |r.signers|
      invariant SignersError(r.signers, 0, x) == SignersError(r.signers, i, x)
    {
      if !x.isValidSecret(r.signers[i]) {
        return Some(InvalidParameter(SignerField(i), r.signers[i], "Signer must start with `S`."));
      }
      i := i + 1;
    }
    ghost var bodies := Bodies(r.operations[..]);
    var j := 0;
    while j < r.operations.Length
      invariant 0 <= j <= r.operations.Length
      invariant BodiesError(bodies, 0, x) == BodiesError(bodies, j, x)
    {
      var e := x.validateBody(r.operations[j].body.value);
      if e.Some? {
        return e;
      }
      j := j + 1;
    }
    return None;
  }
}
