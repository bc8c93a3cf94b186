/** Any number of operators applying checkpoint transitions by compare-and-set on one durable row. */
module AcquisitionRuns {
  import opened Options
  import opened Acquisition

  /**
    The row, what each operator has read last, and how often a dispatch has won. The row is
    replaced when its sequence number is still the one the operator read.
   */
  datatype World = World(row: Checkpoint, read: map<nat, Checkpoint>, dispatches: nat)

  datatype Event = Read(operator: nat) | Cas(operator: nat, action: Action)

  function Begin(c: Checkpoint): World {
    World(c, map[], 0)
  }

  predicate Wins(w: World, operator: nat, action: Action) {
    operator in w.read && Candidate(w.read[operator], action).Ok? && w.read[operator].sequence == w.row.sequence
  }

  function Apply(w: World, e: Event): World {
    match e
    case Read(operator) => w.(read := w.read[operator := w.row])
    case Cas(operator, action) =>
      if !Wins(w, operator, action) then w
      else w.(row := Candidate(w.read[operator], action).value, dispatches := if action.Dispatch? then w.dispatches + 1 else w.dispatches)
  }

  function After(w: World, events: seq<Event>): World
    decreases |events|
  {
    if events == [] then w else After(Apply(w, events[0]), events[1..])
  }

  predicate Undispatched(c: Checkpoint) {
    c.state == Unprepared || c.state == Prepared
  }

  /** Readers hold former rows; the same sequence number means the same row. */
  ghost predicate Inv(w: World) {
    && Valid(w.row)
    && (forall o: nat :: o in w.read ==> w.read[o].sequence <= w.row.sequence)
    && (forall o: nat :: o in w.read && w.read[o].sequence == w.row.sequence ==> w.read[o] == w.row)
    && w.dispatches == if Undispatched(w.row) then 0 else 1
  }

  /** What holds between a row and any later row. */
  ghost predicate Succeeds(c: Checkpoint, c': Checkpoint) {
    && c'.original == c.original
    && c.sequence <= c'.sequence && (c' != c ==> c.sequence < c'.sequence)
    && (c.preparation.Some? ==> c'.preparation == c.preparation)
    && (c.lease.Some? ==> c'.lease.Some? && c'.lease.value.leaseId == c.lease.value.leaseId
                          && c'.lease.value.expiresAt == c.lease.value.expiresAt)
    && (c.lease.Some? && c.lease.value.resourceId.Some? ==> c'.lease.value.resourceId == c.lease.value.resourceId)
    && (!Undispatched(c) ==> !Undispatched(c'))
  }

  /** Every transition, also those that skip the validator, keeps the validator's invariant and all custody facts. */
  lemma CandidateSucceeds(c: Checkpoint, a: Action)
    requires Candidate(c, a).Ok?
    ensures Valid(c) && Valid(Candidate(c, a).value) && Succeeds(c, Candidate(c, a).value)
    ensures Undispatched(c) && !Undispatched(Candidate(c, a).value) <==> a.Dispatch?
  {
  }

  lemma SucceedsTransitive(a: Checkpoint, b: Checkpoint, c: Checkpoint)
    requires Succeeds(a, b) && Succeeds(b, c)
    ensures Succeeds(a, c)
  {
  }

  lemma StepKeeps(w: World, e: Event)
    requires Inv(w)
    ensures Inv(Apply(w, e)) && Succeeds(w.row, Apply(w, e).row) && w.dispatches <= Apply(w, e).dispatches
  {
    if e.Cas? && Wins(w, e.operator, e.action) {
      CandidateSucceeds(w.row, e.action);
    }
  }

  lemma {:induction false} RunKeeps(w: World, events: seq<Event>)
    requires Inv(w)
    ensures Inv(After(w, events)) && Succeeds(w.row, After(w, events).row)
    decreases |events|
  {
    if events != [] {
      StepKeeps(w, events[0]);
      RunKeeps(Apply(w, events[0]), events[1..]);
      SucceedsTransitive(w.row, Apply(w, events[0]).row, After(w, events).row);
    }
  }

  /** From any two moments of any run: facts, digest, lease identity and native resource never change or disappear. */
  lemma CustodyIsForever(attempt: string, r: Request, q: Quote, before: seq<Event>, after: seq<Event>)
    requires FromOriginal(attempt, r, q).Ok?
    ensures var w := After(Begin(FromOriginal(attempt, r, q).value), before); Succeeds(w.row, After(w, after).row) && Valid(w.row)
  {
    RunKeeps(Begin(FromOriginal(attempt, r, q).value), before);
    RunKeeps(After(Begin(FromOriginal(attempt, r, q).value), before), after);
  }

  /** At most one dispatch ever wins, and the row is past preparation exactly when one has. */
  lemma AtMostOneDispatch(attempt: string, r: Request, q: Quote, events: seq<Event>)
    requires FromOriginal(attempt, r, q).Ok?
    ensures var w := After(Begin(FromOriginal(attempt, r, q).value), events);
            w.dispatches <= 1 && (w.dispatches == 1 <==> !Undispatched(w.row))
  {
    RunKeeps(Begin(FromOriginal(attempt, r, q).value), events);
  }

  /** Comparing sequence numbers is as good as comparing whole rows. */
  lemma SequenceIdentifiesTheRow(attempt: string, r: Request, q: Quote, events: seq<Event>, operator: nat, action: Action)
    requires FromOriginal(attempt, r, q).Ok?
    ensures var w := After(Begin(FromOriginal(attempt, r, q).value), events);
            Wins(w, operator, action) <==> operator in w.read && w.read[operator] == w.row && Candidate(w.row, action).Ok?
  {
    RunKeeps(Begin(FromOriginal(attempt, r, q).value), events);
  }

  /** require_original accepts exactly the request and quote the attempt was allocated for. */
  lemma OnlyTheOriginalIsAccepted(attempt: string, r: Request, q: Quote, events: seq<Event>, r': Request, q': Quote)
    requires FromOriginal(attempt, r, q).Ok?
    ensures RequireOriginal(After(Begin(FromOriginal(attempt, r, q).value), events).row, r', q').Ok? <==> r' == r && q' == q
  {
    RunKeeps(Begin(FromOriginal(attempt, r, q).value), events);
  }
}
