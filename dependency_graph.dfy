/**
  Deploy-order dependencies between stacks, given as a set of
  (dependent, dependency) pairs: chains of them, cycles, and the orders
  that deploy every dependency before its dependents.
 */
module DependencyGraph {

  /** Each step of `chain` goes from a dependent to one of its declared dependencies. */
  ghost predicate IsChain<T>(deps: set<(T, T)>, chain: seq<T>) {
    forall i | 0 <= i < |chain| - 1 :: (chain[i], chain[i + 1]) in deps
  }

  /** `a` depends on `b`, directly or through other stacks. */
  ghost predicate DependsOn<T(!new)>(deps: set<(T, T)>, a: T, b: T) {
    exists chain | IsChain(deps, chain) :: |chain| >= 2 && chain[0] == a && chain[|chain| - 1] == b
  }

  /** No stack depends on itself, directly or transitively. */
  ghost predicate Acyclic<T(!new)>(deps: set<(T, T)>) {
    forall x :: !DependsOn(deps, x, x)
  }

  /** Deploying stacks by increasing `rank` puts every dependency strictly before its dependent. */
  ghost predicate RespectsRank<T>(rank: T -> nat, deps: set<(T, T)>) {
    forall p | p in deps :: rank(p.1) < rank(p.0)
  }

  /** Along a chain of dependencies a respected rank strictly decreases. */
  lemma {:induction false} ChainDescends<T>(rank: T -> nat, deps: set<(T, T)>, chain: seq<T>)
    requires RespectsRank(rank, deps)
    requires IsChain(deps, chain) && |chain| >= 2
    ensures rank(chain[|chain| - 1]) < rank(chain[0])
  {
    assert (chain[0], chain[1]) in deps;
    if |chain| > 2 {
      var rest := chain[1..];
      assert IsChain(deps, rest) by {
        forall i | 0 <= i < |rest| - 1 ensures (rest[i], rest[i + 1]) in deps {
          assert (chain[i + 1], chain[i + 2]) in deps;
        }
      }
      ChainDescends(rank, deps, rest);
    }
  }

  /** A dependency, direct or transitive, is deployed before its dependent. */
  lemma DependencyDeploysFirst<T(!new)>(rank: T -> nat, deps: set<(T, T)>, a: T, b: T)
    requires RespectsRank(rank, deps)
    requires DependsOn(deps, a, b)
    ensures rank(b) < rank(a)
  {
    var chain :| IsChain(deps, chain) && |chain| >= 2 && chain[0] == a && chain[|chain| - 1] == b;
    ChainDescends(rank, deps, chain);
  }

  /** A relation that some deploy order respects has no cycle. */
  lemma RankedMeansAcyclic<T(!new)>(rank: T -> nat, deps: set<(T, T)>)
    requires RespectsRank(rank, deps)
    ensures Acyclic(deps)
  {
    forall x ensures !DependsOn(deps, x, x) {
      if DependsOn(deps, x, x) {
        DependencyDeploysFirst(rank, deps, x, x);
      }
    }
  }

  /** Two declared steps make a transitive dependency. */
  lemma TwoStepDependency<T(!new)>(deps: set<(T, T)>, a: T, b: T, c: T)
    requires (a, b) in deps && (b, c) in deps
    ensures DependsOn(deps, a, c)
  {
    assert IsChain(deps, [a, b, c]);
  }

  /** A declared pair is a dependency. */
  lemma DirectDependency<T(!new)>(deps: set<(T, T)>, a: T, b: T)
    requires (a, b) in deps
    ensures DependsOn(deps, a, b)
  {
    assert IsChain(deps, [a, b]);
  }
}
