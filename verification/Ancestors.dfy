/** The ancestors of a table: a walk up the parent links, cut off after eight and at the first repetition. */
module Ancestors {
  import opened Wrappers

  const LIMIT := 8

  /** The table `n` links above `table`. */
  function Up(parent: map<string, string>, table: string, n: nat): Option<string> {
    if n == 0 then Some(table)
    else
      match Up(parent, table, n - 1)
      case None => None
      case Some(t) => if t in parent then Some(parent[t]) else None
  }

  ghost predicate IsAncestor(parent: map<string, string>, table: string, t: string) {
    exists n: nat :: n > 0 && Up(parent, table, n) == Some(t)
  }

  /** The chain of parents above a table, each once. */
  ghost predicate Chain(parent: map<string, string>, table: string, ancestors: seq<string>) {
    && (forall i :: 0 <= i < |ancestors| ==> Up(parent, table, i + 1) == Some(ancestors[i]))
    && (forall i, j :: 0 <= i < j < |ancestors| ==> ancestors[i] != ancestors[j])
  }

  function Last(table: string, ancestors: seq<string>): string {
    if ancestors == [] then table else ancestors[|ancestors| - 1]
  }

  /** Nothing new lies above the last table of the chain. */
  predicate Closed(parent: map<string, string>, table: string, ancestors: seq<string>) {
    var last := Last(table, ancestors);
    last !in parent || parent[last] in ancestors
  }

  /** A chain holds every ancestor exactly when its last table has no parent or one already in it. */
  lemma ChainIsCompleteExactly(parent: map<string, string>, table: string, ancestors: seq<string>)
    requires Chain(parent, table, ancestors)
    ensures (forall t :: IsAncestor(parent, table, t) ==> t in ancestors) <==> Closed(parent, table, ancestors)
  {
    var n, last := |ancestors|, Last(table, ancestors);
    assert Up(parent, table, n) == Some(last);
    if last in parent {
      assert Up(parent, table, n + 1) == Some(parent[last]);
      assert IsAncestor(parent, table, parent[last]);
    }
    if Closed(parent, table, ancestors) {
      forall t | IsAncestor(parent, table, t) ensures t in ancestors {
        var k: nat :| k > 0 && Up(parent, table, k) == Some(t);
        ClosedChainsHoldAll(parent, table, ancestors, k);
      }
    }
  }

  lemma {:induction false} ClosedChainsHoldAll(parent: map<string, string>, table: string, ancestors: seq<string>,
                                               k: nat)
    requires Chain(parent, table, ancestors) && Closed(parent, table, ancestors)
    ensures k > 0 && Up(parent, table, k).Some? ==> Up(parent, table, k).value in ancestors
  {
    if k > 1 && Up(parent, table, k).Some? {
      ClosedChainsHoldAll(parent, table, ancestors, k - 1);
      var below := Up(parent, table, k - 1).value;
      var i :| 0 <= i < |ancestors| && ancestors[i] == below;
      if i + 1 < |ancestors| {
        assert Up(parent, table, i + 2) == Some(ancestors[i + 1]);
      }
    } else if k == 1 && ancestors != [] {
      assert Up(parent, table, 1) == Some(ancestors[0]);
    }
  }

  /** The walk: complete, unless it was cut off at the limit below a table not seen before. */
  method TableAncestors(parent: map<string, string>, table: string) returns (ancestors: seq<string>)
    ensures Chain(parent, table, ancestors) && |ancestors| <= 8
    ensures (forall t :: IsAncestor(parent, table, t) ==> t in ancestors)
            <==> |ancestors| < 8 || Closed(parent, table, ancestors)
  {
    ancestors := [];
    var current := table;
    ghost var closed := false;
    for i := 0 to LIMIT
      invariant Chain(parent, table, ancestors) && |ancestors| == i && current == Last(table, ancestors)
      invariant !closed
    {
      if current !in parent {
        closed := true;
        break;
      }
      var next := parent[current];
      if next in ancestors {
        closed := true;
        break;
      }
      assert Up(parent, table, i) == Some(current);
      current := next;
      ancestors := ancestors + [next];
    }
    assert closed ==> Closed(parent, table, ancestors);
    ChainIsCompleteExactly(parent, table, ancestors);
  }
}
