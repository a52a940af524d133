/**
 Commits as a finite acyclic history, and which commits each attempt of a retry
 chain contributed (CollectExecutionOutput, internal/agentrunner/worktree.go).
 */
module CommitGraph {
  type Commit = nat

  /** A commit's parents were made before it. */
  type Graph = g: seq<set<Commit>> | forall c, p :: 0 <= c < |g| && p in g[c] ==> p < c

  function Reach(g: Graph, c: Commit): set<Commit>
    requires c < |g|
  {
    {c} + set p, a | p in g[c] && a in Reach(g, p) :: a
  }

  predicate Ancestor(g: Graph, a: Commit, b: Commit)
    requires b < |g|
  {
    a in Reach(g, b)
  }

  lemma {:induction false} ReachTransitive(g: Graph, a: Commit, b: Commit, c: Commit)
    requires c < |g| && b < |g| && a in Reach(g, b) && b in Reach(g, c)
    ensures a in Reach(g, c)
  {
    if b != c {
      var p :| p in g[c] && b in Reach(g, p);
      ReachTransitive(g, a, b, p);
    }
  }

  /** What is an ancestor of a commit brings all its history along. */
  lemma AncestorReach(g: Graph, b: Commit, c: Commit)
    requires b < |g| && c < |g| && b in Reach(g, c)
    ensures Reach(g, b) <= Reach(g, c)
  {
    forall a | a in Reach(g, b) ensures a in Reach(g, c) { ReachTransitive(g, a, b, c); }
  }

  /** History is only ever added to. */
  lemma {:induction false} ReachStable(g: Graph, h: Graph, c: Commit)
    requires g <= h && c < |g|
    ensures Reach(h, c) == Reach(g, c)
  {
    forall p | p in g[c] ensures Reach(h, p) == Reach(g, p) { ReachStable(g, h, p); }
    assert h[c] == g[c];
  }

  /** A new commit on top of a tip. */
  function Committed(g: Graph, tip: Commit): (h: Graph)
    requires tip < |g|
    ensures g <= h && |h| == |g| + 1
  {
    g + [{tip}]
  }

  lemma CommittedReach(g: Graph, tip: Commit)
    requires tip < |g|
    ensures Reach(Committed(g, tip), |g|) == {|g|} + Reach(g, tip)
  {
    var h := Committed(g, tip);
    ReachStable(g, h, tip);
    assert h[|g|] == {tip};
  }

  // ---- Commits attributed to each attempt ----

  predicate InGraph(g: Graph, heads: seq<Commit>) {
    forall i :: 0 <= i < |heads| ==> heads[i] < |g|
  }

  /** Every attempt after the first started from its predecessor's tip. */
  predicate RetryChain(g: Graph, heads: seq<Commit>)
    requires InGraph(g, heads)
  {
    forall i :: 0 < i < |heads| ==> Ancestor(g, heads[i - 1], heads[i])
  }

  function Histories(g: Graph, heads: seq<Commit>): seq<set<Commit>>
    requires InGraph(g, heads)
  {
    seq(|heads|, i requires 0 <= i < |heads| => Reach(g, heads[i]))
  }

  /** `git log from..to` in terms of the two histories, an attempt being listed from
      its fork point: the base for the first, its predecessor's tip for a retry. */
  function Listed(base: set<Commit>, histories: seq<set<Commit>>, i: nat): set<Commit>
    requires i < |histories|
  {
    histories[i] - if i == 0 then base else histories[i - 1]
  }

  function Attributed(g: Graph, base: Commit, heads: seq<Commit>, i: nat): set<Commit>
    requires InGraph(g, heads) && base < |g| && i < |heads|
  {
    Listed(Reach(g, base), Histories(g, heads), i)
  }

  predicate Growing(histories: seq<set<Commit>>) {
    forall i, j :: 0 <= i <= j < |histories| ==> histories[i] <= histories[j]
  }

  lemma {:induction false} ChainGrows(g: Graph, heads: seq<Commit>, i: nat, j: nat)
    requires InGraph(g, heads) && RetryChain(g, heads) && i <= j < |heads|
    ensures Histories(g, heads)[i] <= Histories(g, heads)[j]
    decreases j
  {
    if i < j {
      ChainGrows(g, heads, i, j - 1);
      AncestorReach(g, heads[j - 1], heads[j]);
    }
  }

  lemma ChainIsGrowing(g: Graph, heads: seq<Commit>)
    requires InGraph(g, heads) && RetryChain(g, heads)
    ensures Growing(Histories(g, heads))
  {
    forall i, j | 0 <= i <= j < |heads| ensures Histories(g, heads)[i] <= Histories(g, heads)[j] {
      ChainGrows(g, heads, i, j);
    }
  }

  function AllListed(base: set<Commit>, histories: seq<set<Commit>>): set<Commit> {
    if histories == [] then {}
    else AllListed(base, histories[..|histories| - 1]) + Listed(base, histories, |histories| - 1)
  }

  lemma {:induction false} AllListedIs(base: set<Commit>, histories: seq<set<Commit>>)
    requires Growing(histories) && histories != []
    ensures AllListed(base, histories) == (histories[0] - base) + (histories[|histories| - 1] - histories[0])
  {
    var n := |histories| - 1;
    var rest := histories[..n];
    if n == 0 {
      assert AllListed(base, rest) == {};
    } else {
      assert rest[0] == histories[0] && rest[n - 1] == histories[n - 1];
      assert Growing(rest) by {
        assert forall i :: 0 <= i < n ==> rest[i] == histories[i];
      }
      AllListedIs(base, rest);
    }
  }

  lemma {:induction false} AllListedHas(base: set<Commit>, histories: seq<set<Commit>>, c: Commit)
    ensures c in AllListed(base, histories) <==> exists i :: 0 <= i < |histories| && c in Listed(base, histories, i)
  {
    if histories != [] {
      var n := |histories| - 1;
      AllListedHas(base, histories[..n], c);
      assert forall i :: 0 <= i < n ==> Listed(base, histories[..n], i) == Listed(base, histories, i);
    }
  }

  /** No commit is ever attributed to two attempts. */
  lemma AttemptsDisjoint(g: Graph, base: Commit, heads: seq<Commit>, i: nat, j: nat)
    requires InGraph(g, heads) && base < |g| && RetryChain(g, heads) && i < j < |heads|
    ensures Attributed(g, base, heads, i) !! Attributed(g, base, heads, j)
  {
    ChainGrows(g, heads, i, j - 1);
  }

  lemma CoverIff(base: set<Commit>, first: set<Commit>, last: set<Commit>, all: set<Commit>)
    requires first <= last && all == (first - base) + (last - first)
    ensures all == last - base <==> last * base <= first
    ensures all == last - base <==> forall c :: c in all <==> c in last - base
  {
    if all == last - base {
      forall c | c in last * base ensures c in first {
        assert c !in all;
      }
    }
  }

  ghost predicate ListedBySome(base: set<Commit>, histories: seq<set<Commit>>, c: Commit) {
    exists i :: 0 <= i < |histories| && c in Listed(base, histories, i)
  }

  /** Each commit is listed by some attempt if and only if the last adds it to the base. */
  ghost predicate Cover(base: set<Commit>, histories: seq<set<Commit>>)
    requires histories != []
  {
    forall c :: ListedBySome(base, histories, c) <==> c in histories[|histories| - 1] - base
  }

  lemma CoverExactly(base: set<Commit>, histories: seq<set<Commit>>)
    requires Growing(histories) && histories != []
    ensures Cover(base, histories) <==> histories[|histories| - 1] * base <= histories[0]
  {
    var last := histories[|histories| - 1];
    AllListedIs(base, histories);
    forall c ensures ListedBySome(base, histories, c) <==> c in AllListed(base, histories) {
      AllListedHas(base, histories, c);
    }
    CoverIff(base, histories[0], last, AllListed(base, histories));
  }

  /** Together the attempts account for exactly what the last one adds to the base:
      always when the first forked from it, and otherwise exactly when no commit of
      the base entered the chain after its first attempt. */
  lemma AttemptsCover(g: Graph, base: Commit, heads: seq<Commit>)
    requires InGraph(g, heads) && base < |g| && RetryChain(g, heads) && heads != []
    ensures Cover(Reach(g, base), Histories(g, heads)) <==>
            Reach(g, heads[|heads| - 1]) * Reach(g, base) <= Reach(g, heads[0])
    ensures Ancestor(g, base, heads[0]) ==> Cover(Reach(g, base), Histories(g, heads))
  {
    ChainIsGrowing(g, heads);
    CoverExactly(Reach(g, base), Histories(g, heads));
    if Ancestor(g, base, heads[0]) {
      AncestorReach(g, base, heads[0]);
    }
  }
}
