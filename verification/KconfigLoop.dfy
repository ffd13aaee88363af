/** Detection of dependency loops in tools/kconfiglib.py: a depth-first search that colours symbols. */
module KconfigLoop {
  import opened Ring

  /** The _dependents of each defined symbol, in the order in which they are visited. */
  type Graph = map<int, seq<int>>

  /** Only defined symbols are anybody's dependents. */
  ghost predicate Closed(g: Graph) {
    forall x, y :: x in g && y in g[x] ==> y in g
  }

  predicate Edge(g: Graph, x: int, y: int) {
    x in g && y in g[x]
  }

  /** Each symbol depends on the next, and the last on the first. */
  ghost predicate IsLoop(g: Graph, loop: seq<int>) {
    && loop != []
    && (forall i :: 0 < i < |loop| ==> Edge(g, loop[i], loop[i - 1]))
    && Edge(g, loop[0], loop[|loop| - 1])
  }

  ghost predicate HasLoop(g: Graph) {
    exists loop :: IsLoop(g, loop)
  }

  /** The symbols being visited, from the one the search began with to the current one. */
  ghost predicate Path(g: Graph, stack: seq<int>) {
    && Distinct(stack)
    && (forall i :: 0 <= i < |stack| ==> stack[i] in g)
    && (forall i :: 0 < i < |stack| ==> Edge(g, stack[i - 1], stack[i]))
  }

  predicate Before(g: Graph, done: seq<int>, i: nat)
    requires i < |done|
  {
    done[i] in g && forall y :: y in g[done[i]] ==> y in done[..i]
  }

  /** The finished symbols, in the order of finishing: the dependents of each come before it. */
  ghost predicate Finished(g: Graph, done: seq<int>) {
    Distinct(done) && forall i :: 0 <= i < |done| ==> Before(g, done, i)
  }

  lemma EarlierDone(g: Graph, done: seq<int>, x: int, y: int)
    requires Finished(g, done) && x in done && Edge(g, x, y)
    ensures y in done && Index(done, y) < Index(done, x)
  {
    var i := Index(done, x);
    assert Before(g, done, i);
    var j :| 0 <= j < |done[..i]| && done[..i][j] == y;
    IndexUnique(done, j);
  }

  /** Along a chain of dependencies the finishing times grow. */
  lemma {:induction false} ChainRises(g: Graph, done: seq<int>, loop: seq<int>, k: nat)
    requires Finished(g, done) && k < |loop| && loop[k] in done
    requires forall i :: 0 < i < |loop| ==> Edge(g, loop[i], loop[i - 1])
    ensures loop[0] in done && Index(done, loop[0]) <= Index(done, loop[k])
  {
    if k > 0 {
      EarlierDone(g, done, loop[k], loop[k - 1]);
      ChainRises(g, done, loop, k - 1);
    }
  }

  /** When every symbol is finished there is no loop. */
  lemma AllFinished(g: Graph, done: seq<int>)
    requires Finished(g, done) && forall x :: x in g ==> x in done
    ensures !HasLoop(g)
  {
    forall loop ensures !IsLoop(g, loop) {
      if IsLoop(g, loop) {
        var last := |loop| - 1;
        assert last > 0 ==> Edge(g, loop[last], loop[last - 1]);
        ChainRises(g, done, loop, last);
        EarlierDone(g, done, loop[0], loop[last]);
        assert false;
      }
    }
  }

  lemma ExtendPath(g: Graph, stack: seq<int>, x: int)
    requires Path(g, stack) && x in g && x !in stack && (stack != [] ==> Edge(g, stack[|stack| - 1], x))
    ensures Path(g, stack + [x])
  {
  }

  lemma FinishOne(g: Graph, done: seq<int>, x: int)
    requires Finished(g, done) && x in g && x !in done && forall y :: y in g[x] ==> y in done
    ensures Finished(g, done + [x])
  {
    var done' := done + [x];
    forall i | 0 <= i < |done'| ensures Before(g, done', i) {
      assert done'[..i] == done[..i];
      assert done[..|done|] == done;
      assert i < |done| ==> Before(g, done, i);
    }
  }

  // ---------------------------------------------------------------- the search

  /** Visited nothing bad; came across a symbol that is being visited; raised the error. */
  datatype Result = Clean | Pending(loop: seq<int>) | Raised(loop: seq<int>)

  /** Colours 0, 1 and 2 tell unvisited, being visited and finished symbols apart. */
  ghost predicate Coloured(g: Graph, visited: map<int, nat>, stack: seq<int>, done: seq<int>) {
    && visited.Keys == g.Keys
    && Path(g, stack) && Finished(g, done)
    && (forall x :: x in g ==> visited[x] <= 2 && (visited[x] == 1 <==> x in stack) && (visited[x] == 2 <==> x in done))
  }

  function Unvisited(g: Graph, visited: map<int, nat>): set<int> {
    set x | x in g && (x !in visited || visited[x] == 0)
  }

  /** A loop on its way back to the symbol it started from, which is still being visited. */
  ghost predicate WayBack(g: Graph, stack: seq<int>, loop: seq<int>, sym: int) {
    && loop != [] && loop[0] in stack && loop[|loop| - 1] == sym
    && (forall i :: 0 < i < |loop| ==> Edge(g, loop[i], loop[i - 1]))
  }

  /** The Kconfig object's symbols with their _visited fields; `done` is history. */
  class Checker {
    const g: Graph
    var visited: map<int, nat>
    ghost var done: seq<int>

    constructor (g: Graph)
      requires Closed(g)
      ensures this.g == g && Coloured(g, visited, [], done) && done == []
    {
      this.g, visited, done := g, map x | x in g :: 0, [];
    }

    /** _found_dep_loop, for a way back that has reached the dependent `child` of cur: back at its start it
        is a loop that leads from cur over child, and otherwise it goes on from cur. */
    method FoundLoop(loop: seq<int>, cur: int, ghost child: int, ghost stack: seq<int>) returns (r: Result)
      requires WayBack(g, stack + [cur], loop, child) && Edge(g, cur, child)
      ensures r.Raised? <==> loop[0] == cur
      ensures r.Raised? ==> IsLoop(g, r.loop) && r.loop[0] == cur && r.loop[|r.loop| - 1] == child
      ensures !r.Raised? ==> r.Pending? && WayBack(g, stack, r.loop, cur) && r.loop[0] == loop[0] && child in r.loop
    {
      if cur != loop[0] {
        assert (loop + [cur])[|loop| - 1] == child;
        return Pending(loop + [cur]);
      }
      r := Raised(loop);
    }

    /** _check_dep_loop_sym, without choices */
    method CheckSymbol(sym: int, ghost stack: seq<int>) returns (r: Result)
      requires Closed(g) && sym in g && Coloured(g, visited, stack, done)
      requires stack != [] ==> Edge(g, stack[|stack| - 1], sym)
      modifies this
      ensures r.Clean? ==> Coloured(g, visited, stack, done) && sym in done && old(done) <= done
      ensures r.Pending? ==> WayBack(g, stack, r.loop, sym)
      ensures r.Raised? ==> IsLoop(g, r.loop)
      ensures Unvisited(g, visited) <= old(Unvisited(g, visited))
      decreases Unvisited(g, visited)
    {
      hide Path, Finished, Before;
      if visited[sym] == 2 {
        return Clean;
      }
      if visited[sym] == 1 {
        return Pending([sym]);
      }
      ExtendPath(g, stack, sym);
      assert sym in Unvisited(g, visited);
      visited := visited[sym := 1];
      assert sym !in Unvisited(g, visited);
      ghost var path := stack + [sym];
      var k := 0;
      while k < |g[sym]|
        invariant 0 <= k <= |g[sym]|
        invariant Coloured(g, visited, path, done) && old(done) <= done
        invariant forall i :: 0 <= i < k ==> g[sym][i] in done
        invariant Unvisited(g, visited) < old(Unvisited(g, visited))
      {
        var dep := g[sym][k];
        r := CheckSymbol(dep, path);
        if !r.Clean? {
          if r.Pending? {
            r := FoundLoop(r.loop, sym, dep, stack);
          }
          return;
        }
        k := k + 1;
      }
      visited := visited[sym := 2];
      FinishOne(g, done, sym);
      done := done + [sym];
      r := Clean;
    }

    /** The loop over unique_defined_syms when a configuration is loaded; the error is raised exactly
        when the dependencies have a loop, and then shows one. */
    method CheckAll(syms: seq<int>) returns (r: Result)
      requires Closed(g) && Coloured(g, visited, [], done) && forall x :: x in syms <==> x in g
      modifies this
      ensures r.Clean? <==> !HasLoop(g)
      ensures r.Clean? ==> Finished(g, done) && forall x :: x in g ==> x in done
      ensures !r.Clean? ==> r.Raised? && IsLoop(g, r.loop)
    {
      var k := 0;
      while k < |syms|
        invariant 0 <= k <= |syms|
        invariant Coloured(g, visited, [], done)
        invariant forall i :: 0 <= i < k ==> syms[i] in done
      {
        assert syms[k] in syms;
        r := CheckSymbol(syms[k], []);
        if r.Raised? {
          return;
        }
        k := k + 1;
      }
      AllFinished(g, done);
      r := Clean;
    }
  }
}
