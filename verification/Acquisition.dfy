/** The acquisition checkpoint of a non-idempotent create: its validator and its transitions. */
module Acquisition {
  import opened Options

  /** Ideal digests: different contents, different digests. */
  datatype Digest = OfRequest(request: Request) | OfQuote(quote: Quote) | OfPreparation(payload: seq<int>, identity: seq<int>)

  datatype Request = Request(requestId: string, scope: string, providerId: string, location: string, expiresAt: int, details: string)

  datatype Quote = Quote(quoteId: string, requestId: string, requestDigest: Digest, scope: string, providerId: string,
                         location: string, details: string)

  datatype LeaseState = Pending | Ready | LeaseUnknown | LeaseFailed | Releasing | Released

  datatype Lease = Lease(leaseId: string, requestId: string, quoteId: string, scope: string, providerId: string, location: string,
                         state: LeaseState, expiresAt: int, resourceId: Option<string>, releasedAt: Option<int>)

  datatype State = Unprepared | Prepared | Dispatching | Accepted | Unknown

  /** What never changes after the host allocated the attempt. */
  datatype Original = Original(attemptId: string, requestId: string, requestDigest: Digest, quoteId: string, quoteDigest: Digest,
                               scope: string, providerId: string, location: string, expiresAt: int)

  datatype Checkpoint = Checkpoint(original: Original, sequence: nat, state: State, preparation: Option<Digest>, lease: Option<Lease>)

  datatype Refusal = Invalid | Conflict

  const MAX_CREATE_BYTES: nat := 512 * 1024
  const MAX_IDENTITY_BYTES: nat := 128 * 1024

  datatype Preparation = Preparation(payload: seq<int>, identity: seq<int>)

  predicate PreparationValid(p: Preparation) {
    0 < |p.payload| <= MAX_CREATE_BYTES && 0 < |p.identity| <= MAX_IDENTITY_BYTES
  }

  function PreparationDigest(p: Preparation): Digest {
    OfPreparation(p.payload, p.identity)
  }

  predicate LeaseValid(l: Lease) {
    (l.state == Released <==> l.releasedAt.Some?) && (l.state == Ready ==> l.resourceId.Some?)
  }

  /** The lease belongs to this acquisition, is not released, and does not outlive it. */
  predicate LeaseFits(o: Original, l: Lease) {
    && l.requestId == o.requestId && l.quoteId == o.quoteId && l.scope == o.scope && l.providerId == o.providerId
    && l.location == o.location && l.state != Released && l.expiresAt <= o.expiresAt
  }

  /** The checkpoint's own validator, nested records included. */
  predicate Valid(c: Checkpoint) {
    && (c.state == Unprepared <==> c.preparation.None?)
    && (c.state == Unprepared || c.state == Prepared || c.state == Dispatching ==> c.lease.None?)
    && (c.state == Accepted ==> c.lease.Some? && c.lease.value.resourceId.Some?)
    && (c.lease.Some? ==> LeaseValid(c.lease.value) && LeaseFits(c.original, c.lease.value))
  }

  function FromOriginal(attemptId: string, r: Request, q: Quote): Result<Checkpoint, Refusal> {
    if q.requestId != r.requestId || q.requestDigest != OfRequest(r) || q.scope != r.scope || q.providerId != r.providerId
       || q.location != r.location
    then Err(Conflict)
    else Ok(Checkpoint(Original(attemptId, r.requestId, OfRequest(r), q.quoteId, OfQuote(q), r.scope, r.providerId, r.location,
                                r.expiresAt), 0, Unprepared, None, None))
  }

  function RequireOriginal(c: Checkpoint, r: Request, q: Quote): Result<(), Refusal> {
    if !Valid(c) then Err(Invalid)
    else
      match FromOriginal(c.original.attemptId, r, q)
      case Err(e) => Err(e)
      case Ok(expected) => if expected.original != c.original then Err(Conflict) else Ok(())
  }

  function ToPrepared(c: Checkpoint, p: Preparation): Result<Checkpoint, Refusal> {
    if !Valid(c) || !PreparationValid(p) then Err(Invalid)
    else if c.preparation.Some? then (if c.preparation.value != PreparationDigest(p) then Err(Conflict) else Ok(c))
    else Ok(c.(state := Prepared, preparation := Some(PreparationDigest(p)), sequence := c.sequence + 1))
  }

  function ToDispatched(c: Checkpoint): Result<Checkpoint, Refusal> {
    if !Valid(c) then Err(Invalid)
    else if c.state != Prepared then Err(Conflict)
    else Ok(c.(state := Dispatching, sequence := c.sequence + 1))
  }

  /** The new lease names another lease, another expiry, or gives up a known resource. */
  predicate ReplacesCustody(known: Lease, l: Lease) {
    l.leaseId != known.leaseId || l.expiresAt != known.expiresAt || (known.resourceId.Some? && l.resourceId != known.resourceId)
  }

  function NativeFact(c: Checkpoint, state: State, lease: Option<Lease>): Result<Checkpoint, Refusal> {
    if !Valid(c) then Err(Invalid)
    else if c.state != Dispatching && c.state != Accepted && c.state != Unknown then Err(Conflict)
    else if lease.Some? && !LeaseValid(lease.value) then Err(Invalid)
    else
      var l := if lease.None? then c.lease else lease;
      if c.lease.Some? && l.Some? && ReplacesCustody(c.lease.value, l.value) then Err(Conflict)
      else
        var next := c.(state := state, lease := l, sequence := c.sequence + 1);
        if Valid(next) then Ok(next) else Err(Invalid)
  }

  datatype Action = Prepare(preparation: Preparation) | Dispatch | Accept(lease: Lease) | Unsure(fact: Option<Lease>)

  function Candidate(c: Checkpoint, a: Action): Result<Checkpoint, Refusal> {
    match a
    case Prepare(p) => ToPrepared(c, p)
    case Dispatch => ToDispatched(c)
    case Accept(l) => NativeFact(c, Accepted, Some(l))
    case Unsure(l) => NativeFact(c, Unknown, l)
  }
}
