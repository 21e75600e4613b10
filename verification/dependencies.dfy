/** Dependency graphs, and what it means that they have no cycle. */
module Dependencies {

  type Graph<T> = map<T, seq<T>>

  ghost predicate DependsOn<T>(g: Graph<T>, n: T, d: T) {
    n in g && d in g[n]
  }

  ghost predicate IsClosedGraph<T(!new)>(g: Graph<T>) {
    forall n, d :: DependsOn(g, n, d) ==> d in g
  }

  ghost predicate IsLink<T>(g: Graph<T>, path: seq<T>, i: int) {
    0 <= i < |path| - 1 && DependsOn(g, path[i], path[i + 1])
  }

  /** `path` goes from dependent to dependency. */
  ghost predicate IsPath<T>(g: Graph<T>, path: seq<T>) {
    forall i :: 0 <= i < |path| - 1 ==> IsLink(g, path, i)
  }

  /** A path that can be closed: its first member is a dependency of its last. */
  ghost predicate IsCycle<T>(g: Graph<T>, path: seq<T>) {
    path != [] && IsPath(g, path) && DependsOn(g, path[|path| - 1], path[0])
  }

  ghost predicate IsAcyclic<T(!new)>(g: Graph<T>) {
    forall path :: !IsCycle(g, path)
  }

  ghost predicate DependsWithin<T(!new)>(g: Graph<T>, some: set<T>, n: T) {
    exists d :: d in some && DependsOn(g, n, d)
  }

  /** Every member of `some` depends on a member. */
  ghost predicate IsStuck<T(!new)>(g: Graph<T>, some: set<T>) {
    some != {} && some <= g.Keys && forall n {:trigger DependsWithin(g, some, n)} :: n in some ==>
        DependsWithin(g, some, n)
  }

  /** From any member of a stuck set one can walk as long as one likes without leaving it. */
  lemma {:induction false} Walk<T(!new)>(g: Graph<T>, some: set<T>, length: nat) returns (path: seq<T>)
    requires IsStuck(g, some) && length > 0
    ensures |path| == length && IsPath(g, path) && forall i :: 0 <= i < |path| ==> path[i] in some
  {
    if length == 1 {
      var n :| n in some;
      path := [n];
    } else {
      var most := Walk(g, some, length - 1);
      var last := most[|most| - 1];
      assert DependsWithin(g, some, last);
      var d :| d in some && DependsOn(g, last, d);
      path := most + [d];
      forall i | 0 <= i < |path| - 1 ensures IsLink(g, path, i) {
        if i < |most| - 1 {
          assert IsLink(g, most, i);
        }
      }
    }
  }

  /** A walk longer than the set it stays in visits some member twice. */
  lemma {:induction false} Pigeonhole<T>(path: seq<T>, some: set<T>)
    requires forall i :: 0 <= i < |path| ==> path[i] in some
    requires |path| > |some|
    ensures exists i, j :: 0 <= i < j < |path| && path[i] == path[j]
  {
    var last := path[|path| - 1];
    var most := path[..|path| - 1];
    if last in most {
      var i :| 0 <= i < |most| && most[i] == last;
      assert path[i] == path[|path| - 1];
    } else {
      forall i | 0 <= i < |most| ensures most[i] in some - {last} {
        assert most[i] == path[i];
        assert most[i] in most;
      }
      Pigeonhole(most, some - {last});
      var i, j :| 0 <= i < j < |most| && most[i] == most[j];
      assert path[i] == path[j];
    }
  }

  lemma StuckHasCycle<T(!new)>(g: Graph<T>, some: set<T>)
    requires IsStuck(g, some)
    ensures !IsAcyclic(g)
  {
    var path := Walk(g, some, |some| + 1);
    Pigeonhole(path, some);
    var i, j :| 0 <= i < j < |path| && path[i] == path[j];
    ClosedWalk(g, path, i, j);
  }

  lemma ClosedWalk<T(!new)>(g: Graph<T>, path: seq<T>, i: nat, j: nat)
    requires IsPath(g, path) && i < j < |path| && path[i] == path[j]
    ensures IsCycle(g, path[i..j])
  {
    var cycle := path[i..j];
    forall k | 0 <= k < |cycle| - 1 ensures IsLink(g, cycle, k) {
      assert IsLink(g, path, i + k);
    }
    assert IsLink(g, path, j - 1);
  }

  lemma CycleIsStuck<T(!new)>(g: Graph<T>, path: seq<T>)
    requires IsCycle(g, path)
    ensures IsStuck(g, set n | n in path)
  {
    var some := set n | n in path;
    assert path[0] in some;
    forall n | n in some ensures DependsWithin(g, some, n) {
      var i :| 0 <= i < |path| && path[i] == n;
      var d := if i < |path| - 1 then path[i + 1] else path[0];
      assert i < |path| - 1 ==> IsLink(g, path, i);
      assert d in some && DependsOn(g, n, d);
    }
  }

  /** A graph has a cycle if and only if some set of its members is stuck. */
  lemma CyclicMeansStuck<T(!new)>(g: Graph<T>)
    ensures IsAcyclic(g) <==> forall some :: !IsStuck(g, some)
  {
    if some :| IsStuck(g, some) {
      StuckHasCycle(g, some);
    }
    if path :| IsCycle(g, path) {
      CycleIsStuck(g, path);
    }
  }
}
