/** The causal graph of handoffs, and the worklist that collects what a result rests on. */
module Causality {
  import opened Basics
  import opened CommunityTypes

  type Handoffs = map<Id, Handoff>

  /** Causal edges run along depends_on and uses; refutes carries no credit. */
  function Edges(h: Handoff): seq<Id> {
    h.dependsOn + h.uses
  }

  ghost predicate Path(handoffs: Handoffs, path: seq<Id>) {
    && path != []
    && forall i :: 0 <= i < |path| - 1 ==> path[i] in handoffs && path[i + 1] in Edges(handoffs[path[i]])
  }

  ghost predicate Reaches(handoffs: Handoffs, roots: seq<Id>, x: Id) {
    exists path :: Path(handoffs, path) && path[0] in roots && path[|path| - 1] == x
  }

  /** A handoff that cannot support a result: unknown, or NO_SIGNAL. */
  predicate Unusable(handoffs: Handoffs, x: Id) {
    x !in handoffs || handoffs[x].outcome == NoSignal
  }

  /** Everything reachable from the roots, or Reject when something reachable is unusable. */
  ghost function Closure(handoffs: Handoffs, roots: seq<Id>): Result<set<Id>> {
    if exists x :: Reaches(handoffs, roots, x) && Unusable(handoffs, x) then Reject
    else Accept(set x | x in handoffs && Reaches(handoffs, roots, x))
  }

  /** Closed under causal edges, and free of unusable handoffs. */
  ghost predicate Closed(handoffs: Handoffs, s: set<Id>) {
    forall x :: x in s ==> !Unusable(handoffs, x) && forall y :: y in Edges(handoffs[x]) ==> y in s
  }

  lemma RootReached(handoffs: Handoffs, roots: seq<Id>, x: Id)
    requires x in roots
    ensures Reaches(handoffs, roots, x)
  {
    assert Path(handoffs, [x]);
    assert [x][0] in roots && [x][|[x]| - 1] == x;
  }

  lemma EdgeReached(handoffs: Handoffs, roots: seq<Id>, x: Id, y: Id)
    requires Reaches(handoffs, roots, x) && x in handoffs && y in Edges(handoffs[x])
    ensures Reaches(handoffs, roots, y)
  {
    var path :| Path(handoffs, path) && path[0] in roots && path[|path| - 1] == x;
    var longer := path + [y];
    assert Path(handoffs, longer) && longer[0] in roots && longer[|longer| - 1] == y;
  }

  /** A path cannot leave a closed set. */
  lemma {:induction false} PathStaysInside(handoffs: Handoffs, s: set<Id>, path: seq<Id>)
    requires Closed(handoffs, s) && Path(handoffs, path) && path[0] in s
    ensures path[|path| - 1] in s
  {
    if |path| > 1 {
      var init := path[..|path| - 1];
      assert Path(handoffs, init);
      PathStaysInside(handoffs, s, init);
      assert path[|path| - 1] in Edges(handoffs[path[|path| - 2]]);
    }
  }

  lemma ReachedStaysInside(handoffs: Handoffs, s: set<Id>, roots: seq<Id>, x: Id)
    requires Closed(handoffs, s) && Elements(roots) <= s && Reaches(handoffs, roots, x)
    ensures x in s
  {
    var path :| Path(handoffs, path) && path[0] in roots && path[|path| - 1] == x;
    assert path[0] in Elements(roots);
    PathStaysInside(handoffs, s, path);
  }

  /** A closed set that holds the roots, and holds only what they reach, is their closure. */
  lemma ClosureIs(handoffs: Handoffs, roots: seq<Id>, s: set<Id>)
    requires Closed(handoffs, s) && Elements(roots) <= s
    requires forall x :: x in s ==> Reaches(handoffs, roots, x)
    ensures Closure(handoffs, roots) == Accept(s)
  {
    forall x | Reaches(handoffs, roots, x) ensures x in s {
      ReachedStaysInside(handoffs, s, roots, x);
    }
    assert (set x | x in handoffs && Reaches(handoffs, roots, x)) == s;
  }

  /** What Closure accepts really is closed and holds the roots: it is the least such set. */
  lemma ClosureIsLeast(handoffs: Handoffs, roots: seq<Id>)
    requires Closure(handoffs, roots).Accept?
    ensures Closed(handoffs, Closure(handoffs, roots).value)
    ensures Elements(roots) <= Closure(handoffs, roots).value
    ensures forall s :: Closed(handoffs, s) && Elements(roots) <= s ==> Closure(handoffs, roots).value <= s
  {
    var c := Closure(handoffs, roots).value;
    forall x | x in roots ensures x in c {
      RootReached(handoffs, roots, x);
      assert !Unusable(handoffs, x);
    }
    forall x | x in c ensures !Unusable(handoffs, x) && forall y :: y in Edges(handoffs[x]) ==> y in c {
      forall y | y in Edges(handoffs[x]) ensures y in c {
        EdgeReached(handoffs, roots, x, y);
        assert !Unusable(handoffs, y);
      }
    }
    forall s | Closed(handoffs, s) && Elements(roots) <= s ensures c <= s {
      forall x | x in c ensures x in s {
        ReachedStaysInside(handoffs, s, roots, x);
      }
    }
  }

  /** Inside a closed set, checking the direct roots is the same as checking the whole closure. */
  lemma ClosureWithin(handoffs: Handoffs, roots: seq<Id>, s: set<Id>)
    requires Closed(handoffs, s)
    ensures Closure(handoffs, roots).Accept? && Closure(handoffs, roots).value <= s <==> Elements(roots) <= s
  {
    if Elements(roots) <= s {
      forall x | Reaches(handoffs, roots, x) ensures x in s {
        ReachedStaysInside(handoffs, s, roots, x);
      }
    }
    if Closure(handoffs, roots).Accept? {
      ClosureIsLeast(handoffs, roots);
    }
  }

  /** Publishing more handoffs never changes what an accepted closure contains. */
  lemma ClosureStable(handoffs: Handoffs, later: Handoffs, roots: seq<Id>)
    requires forall x :: x in handoffs ==> x in later && later[x] == handoffs[x]
    requires Closure(handoffs, roots).Accept?
    ensures Closure(later, roots) == Closure(handoffs, roots)
  {
    var c := Closure(handoffs, roots).value;
    ClosureIsLeast(handoffs, roots);
    forall x | x in c ensures Reaches(later, roots, x) {
      var path :| Path(handoffs, path) && path[0] in roots && path[|path| - 1] == x;
      assert Path(later, path);
    }
    ClosureIs(later, roots, c);
  }

  /** Worklist invariant: nothing unreachable is kept, and nothing reachable is lost. */
  ghost predicate Pending(handoffs: Handoffs, roots: seq<Id>, found: set<Id>, stack: seq<Id>) {
    && (forall x :: x in found ==> !Unusable(handoffs, x) && Reaches(handoffs, roots, x))
    && (forall x :: x in stack ==> Reaches(handoffs, roots, x))
    && (forall x :: x in roots ==> x in found || x in stack)
    && (forall x, y :: x in found && y in Edges(handoffs[x]) ==> y in found || y in stack)
  }

  lemma PendingStart(handoffs: Handoffs, roots: seq<Id>)
    ensures Pending(handoffs, roots, {}, roots)
  {
    forall x | x in roots ensures Reaches(handoffs, roots, x) {
      RootReached(handoffs, roots, x);
    }
  }

  lemma PendingExpand(handoffs: Handoffs, roots: seq<Id>, found: set<Id>, rest: seq<Id>, x: Id)
    requires Pending(handoffs, roots, found, rest + [x]) && !Unusable(handoffs, x)
    ensures Pending(handoffs, roots, found + {x}, rest + Edges(handoffs[x]))
  {
    assert x in rest + [x];
    forall y | y in Edges(handoffs[x]) ensures Reaches(handoffs, roots, y) {
      EdgeReached(handoffs, roots, x, y);
    }
    forall y ensures y in rest + [x] <==> y in rest || y == x {}
    forall y ensures y in rest + Edges(handoffs[x]) <==> y in rest || y in Edges(handoffs[x]) {}
  }

  lemma PendingSkip(handoffs: Handoffs, roots: seq<Id>, found: set<Id>, rest: seq<Id>, x: Id)
    requires Pending(handoffs, roots, found, rest + [x]) && x in found
    ensures Pending(handoffs, roots, found, rest)
  {
    forall y ensures y in rest + [x] <==> y in rest || y == x {}
  }

  lemma PendingFails(handoffs: Handoffs, roots: seq<Id>, found: set<Id>, rest: seq<Id>, x: Id)
    requires Pending(handoffs, roots, found, rest + [x]) && Unusable(handoffs, x)
    ensures Closure(handoffs, roots).Reject?
  {
    assert x in rest + [x];
  }

  lemma PendingDone(handoffs: Handoffs, roots: seq<Id>, found: set<Id>)
    requires Pending(handoffs, roots, found, [])
    ensures Closure(handoffs, roots) == Accept(found)
  {
    ClosureIs(handoffs, roots, found);
  }

  /** Pop a handoff, check it, and push what it depends on and uses. */
  method DependencyClosure(handoffs: Handoffs, roots: seq<Id>) returns (closure: Result<set<Id>>)
    ensures closure == Closure(handoffs, roots)
  {
    var found: set<Id> := {};
    var stack := roots;
    PendingStart(handoffs, roots);
    while stack != []
      invariant Pending(handoffs, roots, found, stack)
      decreases handoffs.Keys - found, |stack|
    {
      var handoffId := stack[|stack| - 1];
      var rest := stack[..|stack| - 1];
      SplitLast(stack);
      if handoffId in found {
        PendingSkip(handoffs, roots, found, rest, handoffId);
        stack := rest;
      } else if Unusable(handoffs, handoffId) {
        PendingFails(handoffs, roots, found, rest, handoffId);
        return Reject;
      } else {
        PendingExpand(handoffs, roots, found, rest, handoffId);
        ghost var before, after := handoffs.Keys - found, handoffs.Keys - (found + {handoffId});
        assert before == after + {handoffId};
        found := found + {handoffId};
        stack := rest + (handoffs[handoffId].dependsOn + handoffs[handoffId].uses);
      }
    }
    PendingDone(handoffs, roots, found);
    return Accept(found);
  }
}
