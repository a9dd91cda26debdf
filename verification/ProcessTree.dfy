/** Collecting the descendants of a process from one snapshot of the process
    table, which may be inconsistent and even cyclic. Modelled on
    src/cleanup/process.rs. */
module ProcessTree {
  import opened Prelude

  type Pid = nat

  /** Each process with its parent, if it has one. */
  type Table = map<Pid, Option<Pid>>

  predicate IsChild(table: Table, parent: Pid, child: Pid) {
    child in table && table[child] == Some(parent)
  }

  /** A chain of child edges from `root`. */
  ghost predicate Chain(table: Table, root: Pid, path: seq<Pid>) {
    path != [] && path[0] == root && forall i :: 0 <= i < |path| - 1 ==> IsChild(table, path[i], path[i + 1])
  }

  ghost predicate Reachable(table: Table, root: Pid, p: Pid) {
    exists path :: Chain(table, root, path) && path[|path| - 1] == p
  }

  lemma RootReachable(table: Table, root: Pid)
    ensures Reachable(table, root, root)
  {
    assert Chain(table, root, [root]) && [root][|[root]| - 1] == root;
  }

  lemma ChildReachable(table: Table, root: Pid, parent: Pid, child: Pid)
    requires Reachable(table, root, parent) && IsChild(table, parent, child)
    ensures Reachable(table, root, child)
  {
    var path :| Chain(table, root, path) && path[|path| - 1] == parent;
    var longer := path + [child];
    assert Chain(table, root, longer) && longer[|longer| - 1] == child;
  }

  /** A set that holds the root and all children of its members holds everything
      reachable. */
  lemma {:induction false} ClosedHoldsReachable(table: Table, root: Pid, closed: set<Pid>, path: seq<Pid>)
    requires Chain(table, root, path) && root in closed
    requires forall x, c :: x in closed && IsChild(table, x, c) ==> c in closed
    ensures path[|path| - 1] in closed
  {
    if |path| > 1 {
      var front := path[..|path| - 1];
      assert Chain(table, root, front);
      ClosedHoldsReachable(table, root, closed, front);
      assert IsChild(table, path[|path| - 2], path[|path| - 1]);
    }
  }

  /** The index from parents to children, filled in one pass in no fixed order. */
  ghost predicate Indexes(table: Table, done: set<Pid>, children: map<Pid, seq<Pid>>) {
    forall x, c :: (x in children && c in children[x]) <==> (c in done && IsChild(table, x, c))
  }

  method IndexChildren(table: Table) returns (children: map<Pid, seq<Pid>>)
    ensures Indexes(table, table.Keys, children)
  {
    children := map[];
    var rest := table.Keys;
    ghost var done: set<Pid> := {};
    while rest != {}
      invariant done + rest == table.Keys && done !! rest
      invariant Indexes(table, done, children)
      decreases rest
    {
      var pid :| pid in rest;
      if table[pid].Some? {
        var parent := table[pid].value;
        var kids := if parent in children then children[parent] else [];
        ghost var was := children;
        children := children[parent := kids + [pid]];
        forall x, c ensures (x in children && c in children[x]) <==> (c in done + {pid} && IsChild(table, x, c)) {
          assert (x in was && c in was[x]) <==> (c in done && IsChild(table, x, c));
        }
      }
      rest, done := rest - {pid}, done + {pid};
    }
    assert done == table.Keys;
  }

  /** Every member's parent is the root or stands earlier. */
  ghost predicate ParentsFirst(table: Table, root: Pid, result: seq<Pid>) {
    forall i :: 0 <= i < |result| ==>
      result[i] in table && table[result[i]].Some? && (table[result[i]].value == root || table[result[i]].value in result[..i])
  }

  /** What the worklist has found so far: `seen` is the root with the result, and
      only members of `open` may have children outside it. */
  ghost predicate Found(table: Table, root: Pid, result: seq<Pid>, visited: set<Pid>, open: set<Pid>) {
    && visited == Listed(result)
    && root !in visited && NoDup(result) && ParentsFirst(table, root, result)
    && visited <= table.Keys
    && (forall p :: p in visited ==> Reachable(table, root, p))
    && (forall x, c :: x in visited + {root} && x !in open && IsChild(table, x, c) ==> c in visited + {root})
  }

  lemma FindOne(table: Table, root: Pid, result: seq<Pid>, visited: set<Pid>, open: set<Pid>, parent: Pid, child: Pid)
    requires Found(table, root, result, visited, open)
    requires parent in visited + {root} && IsChild(table, parent, child) && child != root && child !in visited
    ensures Found(table, root, result + [child], visited + {child}, open + {child})
  {
    if parent == root { RootReachable(table, root); }
    ChildReachable(table, root, parent, child);
    NoDupConcat(result, [child]);
    var longer := result + [child];
    forall i | 0 <= i < |longer|
      ensures longer[i] in table && table[longer[i]].Some? && (table[longer[i]].value == root || table[longer[i]].value in longer[..i])
    {
      if i < |result| {
        assert longer[..i] == result[..i];
      } else {
        assert longer[..i] == result;
      }
    }
  }

  lemma AllFound(table: Table, root: Pid, result: seq<Pid>, visited: set<Pid>)
    requires Found(table, root, result, visited, {})
    ensures NoDup(result) && ParentsFirst(table, root, result)
    ensures forall p :: p in result <==> p != root && Reachable(table, root, p)
  {
    forall p | Reachable(table, root, p) ensures p in visited + {root} {
      var path :| Chain(table, root, path) && path[|path| - 1] == p;
      ClosedHoldsReachable(table, root, visited + {root}, path);
    }
  }

  ghost predicate Within(xs: seq<Pid>, s: set<Pid>) {
    forall x :: x in xs ==> x in s
  }

  /** The body of the worklist loop: new children of `parent` are recorded and pushed. */
  method VisitChildren(table: Table, root: Pid, parent: Pid, kids: seq<Pid>, result: seq<Pid>, visited: set<Pid>, stack: seq<Pid>)
    returns (result': seq<Pid>, visited': set<Pid>, stack': seq<Pid>)
    requires Found(table, root, result, visited, Listed(stack) + {parent})
    requires Within(stack, visited + {root}) && parent in visited + {root}
    requires forall c :: c in kids ==> IsChild(table, parent, c)
    ensures Found(table, root, result', visited', Listed(stack') + {parent})
    ensures Within(stack', visited' + {root}) && Within(kids, visited' + {root})
    ensures visited <= visited' && (visited' == visited ==> stack' == stack)
  {
    result', visited', stack' := result, visited, stack;
    for j := 0 to |kids|
      invariant Found(table, root, result', visited', Listed(stack') + {parent})
      invariant Within(stack', visited' + {root}) && Within(kids[..j], visited' + {root})
      invariant visited <= visited' && (visited' == visited ==> stack' == stack)
    {
      var child := kids[j];
      assert kids[..j + 1] == kids[..j] + [child];
      if child != root && child !in visited' {
        FindOne(table, root, result', visited', Listed(stack') + {parent}, parent, child);
        assert Listed(stack' + [child]) + {parent} == Listed(stack') + {parent} + {child};
        result', visited', stack' := result' + [child], visited' + {child}, stack' + [child];
      }
    }
    assert kids[..|kids|] == kids;
  }

  /** Terminates on every table, cycles included, and lists exactly the processes
      reachable from the root by child edges, the root excepted, once each, every
      parent before its children. */
  method CollectDescendants(table: Table, root: Pid) returns (result: seq<Pid>)
    ensures NoDup(result)
    ensures forall p :: p in result <==> p != root && Reachable(table, root, p)
    ensures ParentsFirst(table, root, result)
  {
    var children := IndexChildren(table);
    var visited: set<Pid>, stack := {}, [root];
    result := [];
    while stack != []
      invariant Found(table, root, result, visited, Listed(stack))
      invariant Within(stack, visited + {root})
      decreases table.Keys - visited, |stack|
    {
      var parent := stack[|stack| - 1];
      assert stack == stack[..|stack| - 1] + [parent];
      assert Listed(stack) == Listed(stack[..|stack| - 1]) + {parent};
      stack := stack[..|stack| - 1];
      ghost var before := table.Keys - visited;
      if parent in children {
        result, visited, stack := VisitChildren(table, root, parent, children[parent], result, visited, stack);
      }
      assert table.Keys - visited <= before;
    }
    AllFound(table, root, result, visited);
  }
}
