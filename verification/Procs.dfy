/**
 Process trees (src/gpuqueue/procs.py), over one snapshot of the process table.
 */
module Procs {

  /** `parent` and `born` are the table; `born` orders processes by start.
      `mute` are the pids for which `ps --ppid` fails or times out, which reads as
      having no children. */
  datatype ProcTable = ProcTable(parent: map<int, int>, born: map<int, nat>, mute: set<int>) {

    /** A parent, by fork or by adoption, is older than its child. */
    ghost predicate Valid() {
      forall p :: p in parent ==> p in born && parent[p] in born && born[parent[p]] < born[p]
    }

    predicate Alive(p: int) {
      p > 0 && p in born
    }

    function Children(p: int): set<int> {
      if p in mute then {} else set k | k in parent && parent[k] == p
    }

    ghost function Younger(p: int): set<int> {
      if p in born then set q | q in born && born[q] > born[p] else born.Keys
    }

    /** `a` is met on the way up from `q`, as far as `ps` shows the way. */
    ghost predicate Above(a: int, q: int)
      requires Valid()
      decreases if q in born then born[q] else 0
    {
      q in parent && parent[q] !in mute && (parent[q] == a || Above(a, parent[q]))
    }

    lemma ChildIsYounger(p: int, k: int)
      requires Valid() && k in Children(p)
      ensures Younger(k) < Younger(p)
    {
      assert k in Younger(p) && k !in Younger(k);
      assert forall q :: q in Younger(k) ==> q in Younger(p);
    }

    /** An ancestor is a parent or an ancestor's child's ancestor: the walk up
        can be split at the top as well as at the bottom. */
    lemma {:induction false} AboveFromTheTop(a: int, q: int)
      requires Valid()
      ensures Above(a, q) <==> exists k :: k in Children(a) && (k == q || Above(k, q))
      decreases if q in born then born[q] else 0
    {
      if q in parent && parent[q] !in mute {
        AboveFromTheTop(a, parent[q]);
        if parent[q] == a {
          assert q in Children(a);
        } else if Above(a, q) {
          var k :| k in Children(a) && (k == parent[q] || Above(k, parent[q]));
          assert Above(k, q);
        }
        if k :| k in Children(a) && (k == q || Above(k, q)) {
          if k != q && parent[q] != k {
            assert Above(k, parent[q]);
          }
        }
      }
    }

    /** A line of descent from `a` down to `q`, each pid the parent of the next
        and each but the last answering `ps`. */
    ghost predicate IsDescent(a: int, q: int, way: seq<int>) {
      && |way| >= 2 && way[0] == a && way[|way| - 1] == q
      && forall i: nat :: i < |way| - 1 ==> IsLink(way, i)
    }

    ghost predicate IsLink(way: seq<int>, i: nat)
      requires i < |way| - 1
    {
      way[i] !in mute && way[i + 1] in parent && parent[way[i + 1]] == way[i]
    }

    lemma DescentGrows(a: int, q: int, way: seq<int>)
      requires q in parent && parent[q] !in mute && IsDescent(a, parent[q], way)
      ensures IsDescent(a, q, way + [q])
    {
      var on := way + [q];
      forall i: nat | i < |on| - 1
        ensures IsLink(on, i)
      {
        if i < |way| - 1 {
          assert IsLink(way, i);
        }
      }
    }

    lemma DescentStops(a: int, q: int, way: seq<int>)
      requires |way| > 2 && IsDescent(a, q, way)
      ensures q in parent && IsDescent(a, parent[q], way[..|way| - 1])
    {
      var up := way[..|way| - 1];
      assert IsLink(way, |way| - 2);
      forall i: nat | i < |up| - 1
        ensures IsLink(up, i)
      {
        assert IsLink(way, i);
      }
    }

    /** The tree below a pid is what a line of descent leads to. */
    lemma {:induction false} AboveIsDescent(a: int, q: int)
      requires Valid()
      ensures Above(a, q) <==> exists way :: IsDescent(a, q, way)
      decreases if q in born then born[q] else 0
    {
      if q in parent {
        AboveIsDescent(a, parent[q]);
        if Above(a, q) {
          if parent[q] == a {
            assert IsDescent(a, q, [a, q]);
          } else {
            var way :| IsDescent(a, parent[q], way);
            DescentGrows(a, q, way);
          }
        }
      }
      if way :| IsDescent(a, q, way) {
        assert IsLink(way, |way| - 2);
        if |way| > 2 {
          DescentStops(a, q, way);
        }
      }
    }

    /** `descendants`: recursion down the tree collects exactly what a walk up
        from each process finds. */
    method Descendants(p: int) returns (kids: set<int>)
      requires Valid()
      ensures forall q :: q in kids <==> Above(p, q)
      decreases Younger(p)
    {
      var todo := Children(p);
      kids := todo;
      while exists k :: k in todo
        invariant todo <= Children(p) <= kids
        invariant forall q :: q in kids ==> Above(p, q)
        invariant forall k, q :: k in Children(p) - todo && Above(k, q) ==> q in kids
        decreases todo
      {
        var k :| k in todo;
        ChildIsYounger(p, k);
        var below := Descendants(k);
        forall q | q in below
          ensures Above(p, q)
        {
          AboveFromTheTop(p, q);
        }
        kids := kids + below;
        todo := todo - {k};
      }
      forall q | Above(p, q)
        ensures q in kids
      {
        AboveFromTheTop(p, q);
      }
    }

    /** The tree as a set, for use in specifications. */
    ghost function Tree(p: int): (tree: set<int>)
      requires Valid()
      ensures forall q :: q in tree <==> q == p || Above(p, q)
    {
      {p} + set q | q in parent && Above(p, q)
    }

    /** The same box with every `ps` answering. */
    ghost function Answering(): (t: ProcTable)
      ensures Valid() ==> t.Valid()
    {
      this.(mute := {})
    }

    /** What a failing `ps` costs, exactly: a process is missed from the tree of
        an ancestor if and only if some pid on the way, that ancestor included, did
        not answer. Nothing is ever found that is not below. */
    lemma {:induction false} MuteHidesExactly(a: int, q: int)
      requires Valid()
      ensures Above(a, q) <==>
                && Answering().Above(a, q)
                && forall m :: m in mute ==> !((m == a || Answering().Above(a, m)) && Answering().Above(m, q))
      decreases if q in born then born[q] else 0
    {
      var t := Answering();
      if q in parent {
        var p := parent[q];
        MuteHidesExactly(a, p);
        forall m
          ensures t.Above(m, q) <==> m == p || t.Above(m, p)
        {
        }
        if p in mute && t.Above(a, q) {
          assert t.Above(p, q);
        }
        if p == a && a !in mute {
          forall m | m in mute
            ensures !(t.Above(a, m) && t.Above(m, q))
          {
            if t.Above(a, m) && t.Above(m, q) {
              NoLoop(a, m);
            }
          }
        }
      }
    }

    lemma {:induction false} AncestorIsOlder(a: int, q: int)
      requires Valid() && Answering().Above(a, q)
      ensures a in born && q in born && born[a] < born[q]
      decreases if q in born then born[q] else 0
    {
      if parent[q] != a {
        AncestorIsOlder(a, parent[q]);
      }
    }

    lemma NoLoop(a: int, m: int)
      requires Valid()
      ensures !(Answering().Above(a, m) && (m == a || Answering().Above(m, a)))
    {
      if Answering().Above(a, m) && (m == a || Answering().Above(m, a)) {
        AncestorIsOlder(a, m);
        if m != a {
          AncestorIsOlder(m, a);
        }
      }
    }
  }
}
