/**
 * The search of an error's causes, contexts and group members that decides
 * whether a failed run may be retried.  The errors form a finite graph that
 * may contain cycles and shared nodes.
 */
module ErrorChain {
  import opened Common

  /** One error object; `members` are the exceptions of an exception group. */
  datatype Error = Error(kind: string, members: seq<nat>, cause: Option<nat>, context: Option<nat>)

  type Graph = map<nat, Error>

  function OptionSeq(o: Option<nat>): seq<nat> {
    if o.Some? then [o.value] else []
  }

  function Reverse(s: seq<nat>): seq<nat> {
    if s == [] then [] else [s[|s| - 1]] + Reverse(s[..|s| - 1])
  }

  lemma {:induction false} ReverseMembers(s: seq<nat>, x: nat)
    ensures x in Reverse(s) <==> x in s
  {
    if s != [] {
      ReverseMembers(s[..|s| - 1], x);
      assert s == s[..|s| - 1] + [s[|s| - 1]];
    }
  }

  /** What visiting an error pushes, the top of the stack last. */
  function Pushed(e: Error): seq<nat> {
    Reverse(e.members) + OptionSeq(e.cause) + OptionSeq(e.context)
  }

  predicate Links(g: Graph, a: nat, b: nat) {
    a in g && (b in g[a].members || g[a].cause == Some(b) || g[a].context == Some(b))
  }

  lemma PushedIsLinked(g: Graph, a: nat, b: nat)
    requires a in g
    ensures b in Pushed(g[a]) <==> Links(g, a, b)
  {
    ReverseMembers(g[a].members, b);
  }

  /** Every reference stays inside the graph. */
  ghost predicate Closed(g: Graph) {
    forall a, b :: Links(g, a, b) ==> b in g
  }

  ghost predicate IsPath(g: Graph, path: seq<nat>) {
    path != [] && forall i :: 0 <= i < |path| - 1 ==> Links(g, path[i], path[i + 1])
  }

  ghost predicate Reaches(g: Graph, a: nat, b: nat) {
    exists path: seq<nat> :: IsPath(g, path) && path[0] == a && path[|path| - 1] == b
  }

  lemma ReachesSelf(g: Graph, a: nat)
    ensures Reaches(g, a, a)
  {
    assert IsPath(g, [a]);
  }

  lemma ReachesStep(g: Graph, a: nat, b: nat, c: nat)
    requires Reaches(g, a, b) && Links(g, b, c)
    ensures Reaches(g, a, c)
  {
    var path: seq<nat> :| IsPath(g, path) && path[0] == a && path[|path| - 1] == b;
    assert IsPath(g, path + [c]);
  }

  /** A set that contains the start and all links out of it contains all that
      can be reached. */
  lemma {:induction false} ClosedUnderPaths(g: Graph, visited: set<nat>, path: seq<nat>)
    requires IsPath(g, path) && path[0] in visited
    requires forall a, b :: a in visited && Links(g, a, b) ==> b in visited
    ensures path[|path| - 1] in visited
  {
    if |path| > 1 {
      assert Links(g, path[0], path[1]);
      assert IsPath(g, path[1..]) by {
        assert forall i :: 0 <= i < |path| - 2 ==> Links(g, path[1..][i], path[1..][i + 1]) by {
          forall i | 0 <= i < |path| - 2
            ensures Links(g, path[1..][i], path[1..][i + 1])
          {
            assert Links(g, path[i + 1], path[i + 2]);
          }
        }
      }
      ClosedUnderPaths(g, visited, path[1..]);
    }
  }

  ghost predicate Distinct(s: seq<nat>) {
    forall i, j :: 0 <= i < j < |s| ==> s[i] != s[j]
  }

  /** The depth-first order of the search: an error before those it leads to,
      its context before its cause before its group's members. */
  function Visit(g: Graph, stack: seq<nat>, seen: set<nat>): seq<nat>
    decreases |g.Keys - seen|, |stack|
  {
    if stack == [] then []
    else
      var current, rest := stack[|stack| - 1], stack[..|stack| - 1];
      if current in seen || current !in g then Visit(g, rest, seen)
      else
        assert g.Keys - (seen + {current}) < g.Keys - seen by {
          assert current in g.Keys - seen;
        }
        CardinalityShrinks(g.Keys - (seen + {current}), g.Keys - seen);
        [current] + Visit(g, rest + Pushed(g[current]), seen + {current})
  }

  lemma CardinalityShrinks(a: set<nat>, b: set<nat>)
    requires a < b
    ensures |a| < |b|
  {
    var x :| x in b && x !in a;
    assert a <= b - {x};
    SubsetSize(a, b - {x});
  }

  lemma {:induction false} SubsetSize(a: set<nat>, b: set<nat>)
    requires a <= b
    ensures |a| <= |b|
  {
    if a != {} {
      var x :| x in a;
      SubsetSize(a - {x}, b - {x});
    }
  }

  /** The search, restated as one unfolding. */
  lemma VisitTop(g: Graph, stack: seq<nat>, seen: set<nat>)
    requires stack != []
    ensures var current, rest := stack[|stack| - 1], stack[..|stack| - 1];
            if current in seen || current !in g then Visit(g, stack, seen) == Visit(g, rest, seen)
            else |g.Keys - (seen + {current})| < |g.Keys - seen|
                 && Visit(g, stack, seen) == [current] + Visit(g, rest + Pushed(g[current]), seen + {current})
  {
    var current := stack[|stack| - 1];
    if current !in seen && current in g {
      assert current in g.Keys - seen;
      CardinalityShrinks(g.Keys - (seen + {current}), g.Keys - seen);
    }
  }

  /** No error is visited twice, and none that was seen before. */
  lemma {:induction false} VisitOnce(g: Graph, stack: seq<nat>, seen: set<nat>)
    ensures Distinct(Visit(g, stack, seen))
    ensures forall e :: e in Visit(g, stack, seen) ==> e in g && e !in seen
    decreases |g.Keys - seen|, |stack|
  {
    if stack != [] {
      var current, rest := stack[|stack| - 1], stack[..|stack| - 1];
      VisitTop(g, stack, seen);
      if current in seen || current !in g {
        VisitOnce(g, rest, seen);
      } else {
        VisitOnce(g, rest + Pushed(g[current]), seen + {current});
      }
    }
  }

  /** Only what the stack leads to is visited. */
  lemma {:induction false} VisitReachable(g: Graph, root: nat, stack: seq<nat>, seen: set<nat>)
    requires forall e :: e in stack ==> Reaches(g, root, e)
    ensures forall e :: e in Visit(g, stack, seen) ==> Reaches(g, root, e)
    decreases |g.Keys - seen|, |stack|
  {
    if stack != [] {
      var current, rest := stack[|stack| - 1], stack[..|stack| - 1];
      VisitTop(g, stack, seen);
      if current in seen || current !in g {
        VisitReachable(g, root, rest, seen);
      } else {
        forall b | b in Pushed(g[current])
          ensures Reaches(g, root, b)
        {
          PushedIsLinked(g, current, b);
          ReachesStep(g, root, current, b);
        }
        VisitReachable(g, root, rest + Pushed(g[current]), seen + {current});
      }
    }
  }

  ghost predicate LinksStayIn(g: Graph, from: set<nat>, stack: seq<nat>) {
    forall a, b :: a in from && Links(g, a, b) ==> b in from || b in stack
  }

  function Elements(s: seq<nat>): set<nat> {
    set x | x in s
  }

  /** What was seen and what is visited contains the stack and its own links. */
  lemma {:induction false} VisitCloses(g: Graph, stack: seq<nat>, seen: set<nat>)
    requires Closed(g) && (forall e :: e in stack ==> e in g) && LinksStayIn(g, seen, stack)
    ensures forall e :: e in stack ==> e in seen || e in Visit(g, stack, seen)
    ensures LinksStayIn(g, seen + Elements(Visit(g, stack, seen)), [])
    decreases |g.Keys - seen|, |stack|
  {
    hide Visit, Pushed, Links, Closed;
    if stack == [] {
      NothingVisited(g, seen);
    } else {
      var current, rest := stack[|stack| - 1], stack[..|stack| - 1];
      assert stack == rest + [current];
      VisitTop(g, stack, seen);
      if current in seen {
        VisitCloses(g, rest, seen);
      } else {
        var next := rest + Pushed(g[current]);
        forall b
          ensures b in Pushed(g[current]) <==> Links(g, current, b)
        {
          PushedIsLinked(g, current, b);
        }
        assert forall b :: b in Pushed(g[current]) ==> b in g by {
          LinksInside(g, current);
        }
        VisitCloses(g, next, seen + {current});
        assert seen + Elements(Visit(g, stack, seen))
            == seen + {current} + Elements(Visit(g, next, seen + {current}));
      }
    }
  }

  lemma NothingVisited(g: Graph, seen: set<nat>)
    ensures Visit(g, [], seen) == []
  {
  }

  lemma LinksInside(g: Graph, a: nat)
    requires Closed(g)
    ensures forall b :: Links(g, a, b) ==> b in g
  {
  }

  /** From one error, each error it leads to is visited, and nothing else. */
  lemma VisitExact(g: Graph, error: nat, e: nat)
    requires Closed(g) && error in g
    ensures e in Visit(g, [error], {}) <==> Reaches(g, error, e)
  {
    ReachesSelf(g, error);
    VisitReachable(g, error, [error], {});
    VisitCloses(g, [error], {});
    if Reaches(g, error, e) {
      var path: seq<nat> :| IsPath(g, path) && path[0] == error && path[|path| - 1] == e;
      ClosedUnderPaths(g, Elements(Visit(g, [error], {})), path);
    }
  }

  /** `_iter_error_chain`, run to its end: what the generator yields. */
  method IterErrorChain(g: Graph, error: nat) returns (yielded: seq<nat>)
    requires Closed(g) && error in g
    ensures yielded == Visit(g, [error], {})
    ensures Distinct(yielded)
    ensures forall e :: e in yielded <==> Reaches(g, error, e)
  {
    hide Visit, Reaches, Distinct, Pushed, Links, Closed;
    yielded := [];
    var seen: set<nat> := {};
    var stack := [error];
    while stack != []
      invariant forall e :: e in stack ==> e in g
      invariant yielded + Visit(g, stack, seen) == Visit(g, [error], {})
      decreases |g.Keys - seen|, |stack|
    {
      VisitTop(g, stack, seen);
      var current := stack[|stack| - 1];
      stack := stack[..|stack| - 1];
      if current in seen {
        continue;
      }
      LinksInside(g, current);
      forall b | b in Pushed(g[current])
        ensures b in g
      {
        PushedIsLinked(g, current, b);
      }
      seen := seen + {current};
      stack := stack + Pushed(g[current]);
      ConcatAssociative(yielded, [current], Visit(g, stack, seen));
      yielded := yielded + [current];
    }
    NothingVisited(g, seen);
    VisitOnce(g, [error], {});
    forall e
      ensures e in yielded <==> Reaches(g, error, e)
    {
      VisitExact(g, error, e);
    }
  }

  /** An error is retryable exactly when some error it leads to is of a
      retryable kind. */
  method IsRetryableRunError(g: Graph, error: nat, retryable: string -> bool) returns (r: bool)
    requires Closed(g) && error in g
    ensures r <==> exists e :: Reaches(g, error, e) && e in g && retryable(g[e].kind)
  {
    var chain := IterErrorChain(g, error);
    forall e | e in chain
      ensures e in g
    {
      ReachedInGraph(g, error, e);
    }
    r := false;
    for i := 0 to |chain|
      invariant forall k :: 0 <= k < i ==> !retryable(g[chain[k]].kind)
    {
      if retryable(g[chain[i]].kind) {
        assert Reaches(g, error, chain[i]);
        return true;
      }
    }
  }

  lemma ReachedInGraph(g: Graph, a: nat, b: nat)
    requires Closed(g) && a in g && Reaches(g, a, b)
    ensures b in g
  {
    var path: seq<nat> :| IsPath(g, path) && path[0] == a && path[|path| - 1] == b;
    ClosedUnderPaths(g, g.Keys, path);
  }

  const RetryLimit := 1

  method ShouldRetryRunError(g: Graph, error: nat, retryable: string -> bool, sawStreamedEvent: bool, attempts: nat)
    returns (r: bool)
    requires Closed(g) && error in g
    ensures r <==> !sawStreamedEvent && attempts == 0 && exists e :: Reaches(g, error, e) && e in g && retryable(g[e].kind)
  {
    if sawStreamedEvent || attempts >= RetryLimit {
      return false;
    }
    r := IsRetryableRunError(g, error, retryable);
  }
}
