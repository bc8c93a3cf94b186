/** The two worklists over possibly cyclic exception graphs. */
module ExceptionGraphs {

  // ----- reachability in a snapshot of the links -----

  type Links = map<nat, seq<nat>>

  predicate Linked(g: Links, a: nat, b: nat) {
    a in g && b in g[a]
  }

  ghost predicate Path(g: Links, p: seq<nat>) {
    forall i, j :: 0 <= i && j == i + 1 && j < |p| ==> Linked(g, p[i], p[j])
  }

  ghost predicate Reachable(g: Links, from: nat, to: nat) {
    exists p :: p != [] && p[0] == from && p[|p| - 1] == to && Path(g, p)
  }

  lemma ReachesItself(g: Links, a: nat)
    ensures Reachable(g, a, a)
  {
    assert [a][0] == a && Path(g, [a]);
  }

  lemma ReachesNext(g: Links, from: nat, a: nat, b: nat)
    requires Reachable(g, from, a) && Linked(g, a, b)
    ensures Reachable(g, from, b)
  {
    var p :| p != [] && p[0] == from && p[|p| - 1] == a && Path(g, p);
    var q := p + [b];
    assert q[0] == from && q[|q| - 1] == b && Path(g, q);
  }

  /** A set that holds the start and every successor of its members holds whatever is reachable. */
  lemma {:induction false} ClosedHoldsPath(g: Links, seen: set<nat>, p: seq<nat>, k: nat)
    requires forall a, b :: a in seen && Linked(g, a, b) ==> b in seen
    requires k < |p| && p[0] in seen && Path(g, p)
    ensures p[k] in seen
  {
    if k > 0 {
      ClosedHoldsPath(g, seen, p, k - 1);
      assert Linked(g, p[k - 1], p[k]);
    }
  }

  lemma ClosedHoldsReachable(g: Links, seen: set<nat>, from: nat)
    requires from in seen
    requires forall a, b :: a in seen && Linked(g, a, b) ==> b in seen
    ensures forall b :: Reachable(g, from, b) ==> b in seen
  {
    forall b | Reachable(g, from, b) ensures b in seen {
      var p :| p != [] && p[0] == from && p[|p| - 1] == b && Path(g, p);
      ClosedHoldsPath(g, seen, p, |p| - 1);
    }
  }

  // ----- a depth-first worklist over identities -----

  ghost predicate LinksKnown(g: Links, seen: set<nat>, pending: seq<nat>, a: nat) {
    a in g && forall b :: b in g[a] ==> b in seen || b in pending
  }

  ghost predicate Frontier(g: Links, seen: set<nat>, pending: seq<nat>) {
    forall a {:trigger LinksKnown(g, seen, pending, a)} :: a in seen ==> LinksKnown(g, seen, pending, a)
  }

  /** Seen and pending objects are reachable, and links of seen objects lead to seen or pending ones. */
  ghost predicate Progress(g: Links, root: nat, seen: set<nat>, pending: seq<nat>) {
    && (forall a {:trigger Reachable(g, root, a)} :: a in seen || a in pending ==> Reachable(g, root, a))
    && (root in seen || root in pending) && Frontier(g, seen, pending)
  }

  lemma ProgressStarts(g: Links, root: nat)
    ensures Progress(g, root, {}, [root])
  {
    ReachesItself(g, root);
  }

  lemma ProgressPops(g: Links, root: nat, seen: set<nat>, pending: seq<nat>, x: nat)
    requires Progress(g, root, seen, pending + [x]) && x in seen
    ensures Progress(g, root, seen, pending)
  {
    assert forall a :: a in pending + [x] <==> a in pending || a == x;
    forall a | a in seen ensures LinksKnown(g, seen, pending, a) {
      assert LinksKnown(g, seen, pending + [x], a);
    }
  }

  lemma ProgressVisits(g: Links, root: nat, seen: set<nat>, pending: seq<nat>, x: nat)
    requires Progress(g, root, seen, pending + [x]) && x in g
    ensures Progress(g, root, seen + {x}, pending + g[x])
  {
    assert forall a :: a in pending + [x] <==> a in pending || a == x;
    assert forall a :: a in pending + g[x] <==> a in pending || a in g[x];
    assert Reachable(g, root, x);
    forall a | a in seen || a == x ensures LinksKnown(g, seen + {x}, pending + g[x], a) {
      if a in seen { assert LinksKnown(g, seen, pending + [x], a); }
    }
    forall b | b in g[x] ensures Reachable(g, root, b) {
      ReachesNext(g, root, x, b);
    }
  }

  lemma ProgressEnds(g: Links, root: nat, seen: set<nat>)
    requires Progress(g, root, seen, [])
    ensures forall a :: a in seen <==> Reachable(g, root, a)
  {
    forall a, b | a in seen && Linked(g, a, b) ensures b in seen { assert LinksKnown(g, seen, [], a); }
    ClosedHoldsReachable(g, seen, root);
  }

  // ----- exception objects -----

  /** The native attributes the scrubber reads or clears, each under a guard of its own. */
  datatype Attribute = Traceback | Cause | Context | Members

  /** The mutable fields of an exception at one moment. */
  datatype Fields = Fields(traceback: bool, cause: Exc?, context: Exc?)

  /** One exception. `members` is its `exceptions` tuple, read natively only for groups. */
  class Exc {
    const id: nat
    const isGroup: bool
    const outcomeUnknown: bool
    const members: seq<Exc>
    const unreadable: set<Attribute>   // reading these raises
    const unwritable: set<Attribute>   // clearing these raises
    var traceback: bool
    var cause: Exc?
    var context: Exc?

    function View(): Fields
      reads this
    {
      Fields(traceback, cause, context)
    }

    /** The explicit evidence links: the cause, then the members of a group. */
    function Evidence(): seq<Exc>
      reads this
    {
      (if cause != null then [cause] else []) + if isGroup then members else []
    }

    /** Every link the scrubber follows: a link that cannot be read hides no other. */
    function Chains(): seq<Exc>
      reads this
    {
      LinksOf(if Cause in unreadable then null else cause,
              if Context in unreadable then null else context,
              if Members in unreadable then [] else members)
    }

    /** Whatever can be cleared is cleared. */
    predicate Scrubbed()
      reads this
    {
      && (Traceback in unwritable || !traceback)
      && (Cause in unwritable || cause == null)
      && (Context in unwritable || context == null)
    }

    /** What refuses to be cleared is as it was. */
    predicate RefusalsKept(was: Fields)
      reads this
    {
      && (Traceback in unwritable ==> traceback == was.traceback)
      && (Cause in unwritable ==> cause == was.cause)
      && (Context in unwritable ==> context == was.context)
    }
  }

  function LinksOf(cause: Exc?, context: Exc?, nested: seq<Exc>): seq<Exc> {
    (if cause != null then [cause] else []) + (if context != null then [context] else []) + nested
  }

  function Ids(es: seq<Exc>): (r: seq<nat>)
    ensures |r| == |es| && forall i :: 0 <= i < |es| ==> r[i] == es[i].id
  {
    seq(|es|, i requires 0 <= i < |es| => es[i].id)
  }

  /** Identities are unique among these objects. */
  ghost predicate Identified(us: set<Exc>) {
    forall a, b :: a in us && b in us && a.id == b.id ==> a == b
  }

  function IdSet(us: set<Exc>): set<nat> {
    set e | e in us :: e.id
  }

  // ----- observed_outcome_unknown -----

  ghost predicate EvidenceOf(us: set<Exc>, g: Links, e: Exc)
    reads e
  {
    e.id in g && g[e.id] == Ids(e.Evidence()) && forall f :: f in e.Evidence() ==> f in us
  }

  ghost predicate EvidenceIs(us: set<Exc>, g: Links)
    reads us
  {
    Identified(us) && forall e {:trigger EvidenceOf(us, g, e)} :: e in us ==> EvidenceOf(us, g, e)
  }

  ghost predicate Observed(us: set<Exc>, seen: set<nat>, observed: seq<Exc>) {
    && (forall e :: e in observed ==> e in us)
    && (forall e :: e in us ==> (e in observed <==> e.outcomeUnknown && e.id in seen))
    && forall i, j :: 0 <= i < j < |observed| ==> observed[i] != observed[j]
  }

  lemma ObservedGrows(us: set<Exc>, seen: set<nat>, observed: seq<Exc>, e: Exc)
    requires Identified(us) && Observed(us, seen, observed) && e in us && e.id !in seen
    ensures Observed(us, seen + {e.id}, if e.outcomeUnknown then observed + [e] else observed)
  {
    if e.outcomeUnknown {
      assert e !in observed;
      assert forall f :: f in observed + [e] <==> f in observed || f == e;
    }
  }

  ghost predicate Observing(us: set<Exc>, g: Links, root: nat, seen: set<nat>, pending: seq<Exc>, observed: seq<Exc>) {
    && (forall e :: e in pending ==> e in us) && Observed(us, seen, observed)
    && Progress(g, root, seen, Ids(pending))
  }

  lemma ObservingStarts(us: set<Exc>, g: Links, e: Exc)
    requires e in us
    ensures Observing(us, g, e.id, {}, [e], [])
  {
    ProgressStarts(g, e.id);
    assert Ids([e]) == [e.id];
  }

  lemma ObservingPops(us: set<Exc>, g: Links, root: nat, seen: set<nat>, rest: seq<Exc>, e: Exc, observed: seq<Exc>)
    requires Observing(us, g, root, seen, rest + [e], observed) && e.id in seen
    ensures Observing(us, g, root, seen, rest, observed)
  {
    assert Ids(rest + [e]) == Ids(rest) + [e.id];
    ProgressPops(g, root, seen, Ids(rest), e.id);
    assert forall f :: f in rest ==> f in rest + [e];
  }

  lemma ObservingVisits(us: set<Exc>, g: Links, root: nat, seen: set<nat>, rest: seq<Exc>, e: Exc, observed: seq<Exc>)
    requires Observing(us, g, root, seen, rest + [e], observed) && e.id !in seen
    requires Identified(us) && e in us && EvidenceOf(us, g, e)
    ensures Observing(us, g, root, seen + {e.id}, rest + e.Evidence(), if e.outcomeUnknown then observed + [e] else observed)
    ensures |IdSet(us) - (seen + {e.id})| < |IdSet(us) - seen|
  {
    assert Ids(rest + [e]) == Ids(rest) + [e.id];
    assert Ids(rest + e.Evidence()) == Ids(rest) + Ids(e.Evidence());
    ProgressVisits(g, root, seen, Ids(rest), e.id);
    ObservedGrows(us, seen, observed, e);
    assert IdSet(us) - seen == IdSet(us) - (seen + {e.id}) + {e.id};
    assert forall f :: f in rest ==> f in rest + [e];
    assert forall f :: f in rest + e.Evidence() <==> f in rest || f in e.Evidence();
  }

  lemma ObservingEnds(us: set<Exc>, g: Links, root: nat, seen: set<nat>, observed: seq<Exc>)
    requires Observing(us, g, root, seen, [], observed)
    ensures Observed(us, seen, observed) && forall a :: a in seen <==> Reachable(g, root, a)
  {
    assert Ids([]) == [];
    ProgressEnds(g, root, seen);
  }

  method PushEvidence(current: Exc, pending: seq<Exc>) returns (longer: seq<Exc>)
    ensures longer == pending + current.Evidence()
  {
    longer := pending;
    if current.cause != null {
      longer := longer + [current.cause];
    }
    if current.isGroup {
      longer := longer + current.members;
    }
  }

  /** Look at one exception not seen before: note it if unknown, and push its evidence. */
  method LookAt(current: Exc, rest: seq<Exc>, before: seq<Exc>, ghost us: set<Exc>, ghost g: Links, ghost root: nat, ghost seen: set<nat>)
    returns (pending: seq<Exc>, observed: seq<Exc>)
    requires Identified(us) && current in us && EvidenceOf(us, g, current) && current.id !in seen
    requires Observing(us, g, root, seen, rest + [current], before)
    ensures Observing(us, g, root, seen + {current.id}, pending, observed)
    ensures |IdSet(us) - (seen + {current.id})| < |IdSet(us) - seen|
  {
    ObservingVisits(us, g, root, seen, rest, current, before);
    observed := before;
    if current.outcomeUnknown {
      observed := observed + [current];
    }
    pending := PushEvidence(current, rest);
  }

  /** The worklist itself: at the end every reachable exception was looked at once. */
  method CollectUnknown(error: Exc, ghost us: set<Exc>, ghost g: Links) returns (observed: seq<Exc>, seen: set<nat>)
    requires EvidenceIs(us, g) && error in us
    ensures Observing(us, g, error.id, seen, [], observed)
  {
    observed := [];
    var pending: seq<Exc> := [error];
    seen := {};
    ObservingStarts(us, g, error);
    while pending != []
      invariant Observing(us, g, error.id, seen, pending, observed)
      decreases |IdSet(us) - seen|, |pending|
    {
      var current := pending[|pending| - 1];
      var rest := pending[..|pending| - 1];
      assert pending == rest + [current] && current in us;
      if current.id in seen {
        ObservingPops(us, g, error.id, seen, rest, current, observed);
        pending := rest;
      } else {
        assert EvidenceOf(us, g, current);
        pending, observed := LookAt(current, rest, observed, us, g, error.id, seen);
        seen := seen + {current.id};
      }
    }
  }

  /** Exactly the unknown outcomes reachable over causes and groups, each once. */
  method ObservedOutcomeUnknown(error: Exc?, ghost us: set<Exc>, ghost g: Links) returns (observed: seq<Exc>)
    requires EvidenceIs(us, g) && (error != null ==> error in us)
    ensures error == null ==> observed == []
    ensures error != null ==> forall e :: e in us ==> (e in observed <==> e.outcomeUnknown && Reachable(g, error.id, e.id))
    ensures forall e :: e in observed ==> e in us
    ensures forall i, j :: 0 <= i < j < |observed| ==> observed[i] != observed[j]
  {
    if error == null {
      return [];
    }
    var seen;
    observed, seen := CollectUnknown(error, us, g);
    ObservingEnds(us, g, error.id, seen, observed);
  }

  // ----- _discard_exception_traceback -----

  /** The links as the scrubber would read them from the objects as they stand. */
  ghost predicate ChainsOf(us: set<Exc>, g: Links, e: Exc)
    reads e
  {
    e.id in g && g[e.id] == Ids(e.Chains()) && forall f :: f in e.Chains() ==> f in us
  }

  /** Objects not seen are as they were, and refusals were kept. */
  ghost predicate OnlySeenTouched(us: set<Exc>, was: map<Exc, Fields>, seen: set<nat>)
    reads us
  {
    forall e {:trigger e.View()} {:trigger e.RefusalsKept(was[e])} :: e in us ==>
      e in was && e.RefusalsKept(was[e]) && (e.id !in seen ==> e.View() == was[e])
  }

  /** Visited objects are scrubbed, the others still as in `g`. */
  ghost predicate PartlyScrubbed(us: set<Exc>, g: Links, seen: set<nat>)
    reads us
  {
    forall e {:trigger ChainsOf(us, g, e)} {:trigger e.Scrubbed()} :: e in us ==>
      if e.id in seen then e.Scrubbed() else ChainsOf(us, g, e)
  }

  ghost predicate Scrubbing(us: set<Exc>, g: Links, root: nat, seen: set<nat>, pending: seq<Exc>) {
    (forall e :: e in pending ==> e in us) && Progress(g, root, seen, Ids(pending))
  }

  lemma ScrubbingVisits(us: set<Exc>, g: Links, root: nat, seen: set<nat>, rest: seq<Exc>, e: Exc)
    requires Scrubbing(us, g, root, seen, rest + [e]) && e.id !in seen && e in us && ChainsOf(us, g, e)
    ensures Scrubbing(us, g, root, seen + {e.id}, rest + e.Chains())
    ensures |IdSet(us) - (seen + {e.id})| < |IdSet(us) - seen|
  {
    assert Ids(rest + [e]) == Ids(rest) + [e.id];
    assert Ids(rest + e.Chains()) == Ids(rest) + Ids(e.Chains());
    ProgressVisits(g, root, seen, Ids(rest), e.id);
    assert IdSet(us) - seen == IdSet(us) - (seen + {e.id}) + {e.id};
    assert forall f :: f in rest ==> f in rest + [e];
    assert forall f :: f in rest + e.Chains() <==> f in rest || f in e.Chains();
  }

  lemma ScrubbingPops(us: set<Exc>, g: Links, root: nat, seen: set<nat>, rest: seq<Exc>, e: Exc)
    requires Scrubbing(us, g, root, seen, rest + [e]) && e.id in seen
    ensures Scrubbing(us, g, root, seen, rest)
  {
    assert Ids(rest + [e]) == Ids(rest) + [e.id];
    ProgressPops(g, root, seen, Ids(rest), e.id);
    assert forall f :: f in rest ==> f in rest + [e];
  }

  method PushLinks(cause: Exc?, context: Exc?, nested: seq<Exc>, pending: seq<Exc>) returns (longer: seq<Exc>)
    ensures longer == pending + LinksOf(cause, context, nested)
  {
    longer := pending;
    if cause != null {
      longer := longer + [cause];
    }
    if context != null {
      longer := longer + [context];
    }
    longer := longer + nested;
  }

  /** Read every link of one exception, clear what can be cleared, and push the links. */
  method ScrubOne(current: Exc, pending: seq<Exc>) returns (longer: seq<Exc>)
    modifies current
    ensures longer == pending + old(current.Chains())
    ensures current.Scrubbed() && current.RefusalsKept(old(current.View()))
  {
    var cause := if Cause in current.unreadable then null else current.cause;
    var context := if Context in current.unreadable then null else current.context;
    var nested := if Members in current.unreadable then [] else current.members;
    if Traceback !in current.unwritable {
      current.traceback := false;
    }
    if Cause !in current.unwritable {
      current.cause := null;
    }
    if Context !in current.unwritable {
      current.context := null;
    }
    longer := PushLinks(cause, context, nested, pending);
  }

  /** Scrub one object not seen before, and remember it. */
  method VisitOne(current: Exc, rest: seq<Exc>, ghost us: set<Exc>, ghost g: Links, ghost was: map<Exc, Fields>, ghost seen: set<nat>)
    returns (pending: seq<Exc>)
    requires Identified(us) && current in us && current.id !in seen
    requires PartlyScrubbed(us, g, seen) && OnlySeenTouched(us, was, seen)
    modifies current
    ensures pending == rest + old(current.Chains())
    ensures PartlyScrubbed(us, g, seen + {current.id}) && OnlySeenTouched(us, was, seen + {current.id})
  {
    assert current.View() == was[current];
    pending := ScrubOne(current, rest);
    forall e | e in us
      ensures if e.id in seen + {current.id} then e.Scrubbed() else ChainsOf(us, g, e)
    {
      if e != current { assert e.id != current.id && (e.id in seen || old(ChainsOf(us, g, e))); }
    }
    forall e | e in us
      ensures e in was && e.RefusalsKept(was[e]) && (e.id !in seen + {current.id} ==> e.View() == was[e])
    {
      assert old(e.View()) == e.View() || e == current;
    }
  }

  /** The worklist itself: at the end exactly the seen objects were scrubbed. */
  method DrainWorklist(exc: Exc, ghost us: set<Exc>, ghost g: Links, ghost was: map<Exc, Fields>) returns (seen: set<nat>)
    requires Identified(us) && exc in us && PartlyScrubbed(us, g, {}) && OnlySeenTouched(us, was, {})
    modifies us
    ensures PartlyScrubbed(us, g, seen) && OnlySeenTouched(us, was, seen)
    ensures Progress(g, exc.id, seen, [])
  {
    var pending: seq<Exc> := [exc];
    seen := {};
    ProgressStarts(g, exc.id);
    assert Ids([exc]) == [exc.id];
    while pending != []
      invariant Scrubbing(us, g, exc.id, seen, pending)
      invariant PartlyScrubbed(us, g, seen) && OnlySeenTouched(us, was, seen)
      decreases |IdSet(us) - seen|, |pending|
    {
      var current := pending[|pending| - 1];
      var rest := pending[..|pending| - 1];
      assert pending == rest + [current] && current in us;
      if current.id in seen {
        ScrubbingPops(us, g, exc.id, seen, rest, current);
        pending := rest;
      } else {
        assert ChainsOf(us, g, current);
        ScrubbingVisits(us, g, exc.id, seen, rest, current);
        pending := VisitOne(current, rest, us, g, was, seen);
        seen := seen + {current.id};
      }
    }
    assert Ids([]) == [];
  }

  /**
    Everything reachable over readable links in the graph as it was on entry is scrubbed,
    although scrubbing cuts the links it is found by; an attribute that refuses keeps its value
    and protects no other, and nothing unreachable is touched.
   */
  method DiscardExceptionTraceback(exc: Exc, ghost us: set<Exc>, ghost g: Links)
    requires Identified(us) && exc in us && PartlyScrubbed(us, g, {})
    modifies us
    ensures forall e :: e in us ==> e.RefusalsKept(old(e.View()))
    ensures forall e :: e in us && Reachable(g, exc.id, e.id) ==> e.Scrubbed()
    ensures forall e :: e in us && !Reachable(g, exc.id, e.id) ==> e.View() == old(e.View())
  {
    ghost var was := map e | e in us :: e.View();
    var seen := DrainWorklist(exc, us, g, was);
    ProgressEnds(g, exc.id, seen);
    forall e | e in us
      ensures e.RefusalsKept(old(e.View()))
      ensures if Reachable(g, exc.id, e.id) then e.Scrubbed() else e.View() == old(e.View())
    {
      assert e.RefusalsKept(was[e]) && (e.id in seen <==> Reachable(g, exc.id, e.id));
    }
  }
}
