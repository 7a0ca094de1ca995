/** The wake-up filter: which SmolVMs are reconciled again when a node changes, and that these
    are exactly the ones a change of that node can matter to. */
module Wakeup {
  import opened Types
  import opened StatusWriter
  import opened Capacity
  import opened Scheduler
  import opened Decision
  import opened Reconciler
  import opened Samples

  predicate Concerned(vm: SmolVM, n: string) {
    vm.status.nodeName == n || (vm.status.nodeName == "" && (vm.spec.nodeName == "" || vm.spec.nodeName == n))
  }

  /** The VMs to wake, in list order, as (namespace, name). */
  function Requests(vms: seq<SmolVM>, n: string): seq<(string, string)> {
    if vms == [] then []
    else
      var last := vms[|vms| - 1];
      Requests(vms[..|vms| - 1], n) + (if Concerned(last, n) then [(last.namespace, last.name)] else [])
  }

  method RequestsForNodeChange(vms: seq<SmolVM>, n: string) returns (requests: seq<(string, string)>)
    ensures requests == Requests(vms, n)
  {
    requests := [];
    for i := 0 to |vms|
      invariant requests == Requests(vms[..i], n)
    {
      var vm := vms[i];
      assert vms[..i + 1][..i] == vms[..i];
      if vm.status.nodeName == n || (vm.status.nodeName == "" && (vm.spec.nodeName == "" || vm.spec.nodeName == n)) {
        requests := requests + [(vm.namespace, vm.name)];
      }
    }
    assert vms[..|vms|] == vms;
  }

  predicate Asks(vm: SmolVM, n: string, r: (string, string)) { Concerned(vm, n) && r == (vm.namespace, vm.name) }

  /** Woken are exactly the listed VMs that the node concerns. */
  lemma {:induction false} RequestsExact(vms: seq<SmolVM>, n: string, r: (string, string))
    ensures r in Requests(vms, n) <==> exists i :: 0 <= i < |vms| && Asks(vms[i], n, r)
  {
    hide Concerned;
    if vms != [] {
      var front := vms[..|vms| - 1];
      RequestsExact(front, n, r);
      assert forall i :: 0 <= i < |front| ==> front[i] == vms[i];
    }
  }

  function Without(nodes: seq<SmolVMNode>, n: string): seq<SmolVMNode> {
    if nodes == [] then [] else (if nodes[0].name == n then [] else [nodes[0]]) + Without(nodes[1..], n)
  }

  /** Two states of the cluster that differ at most in the SmolVMNode and Node of `n`. */
  predicate DifferOnlyAt(v: View, v': View, n: string) {
    && v' == v.(nodes := v'.nodes, kube := v'.kube)
    && Without(v.nodes, n) == Without(v'.nodes, n)
    && v.kube - {n} == v'.kube - {n}
  }

  lemma WithoutStep(nodes: seq<SmolVMNode>, n: string)
    ensures Without(nodes, n) ==
            if nodes == [] then [] else if nodes[0].name == n then Without(nodes[1..], n) else [nodes[0]] + Without(nodes[1..], n)
  {
  }

  lemma FindStep(node: SmolVMNode, rest: seq<SmolVMNode>, m: string)
    ensures FindNode([node] + rest, m) == if node.name == m then Some(node) else FindNode(rest, m)
  {
    assert ([node] + rest)[1..] == rest;
  }

  lemma {:induction false} FindWithout(nodes: seq<SmolVMNode>, n: string, m: string)
    requires m != n
    ensures FindNode(nodes, m) == FindNode(Without(nodes, n), m)
  {
    hide Without;
    WithoutStep(nodes, n);
    if nodes != [] {
      FindWithout(nodes[1..], n, m);
      if nodes[0].name != n {
        FindStep(nodes[0], Without(nodes[1..], n), m);
      }
    }
  }

  /** Completeness: if the filter passes a VM over, then in any two states that differ only in
      that node's objects its reconcile makes the same calls and writes the same status. */
  lemma OmittedUnaffected(vm: SmolVM, n: string, v: View, v': View, outcome: CallOutcome, second: Option<SmolVM>, now: Time)
    requires !Concerned(vm, n) && DifferOnlyAt(v, v', n)
    ensures Trace(Some(vm), v, outcome, second, now) == Trace(Some(vm), v', outcome, second, now)
  {
    var m := if vm.Bound() then vm.status.nodeName else vm.spec.nodeName;
    FindWithout(v.nodes, n, m);
    FindWithout(v'.nodes, n, m);
    SameDecision(vm, n, v, v', m);
    hide Decide, AfterCall, StatusAfter;
  }

  lemma SameDecision(vm: SmolVM, n: string, v: View, v': View, m: string)
    requires !Concerned(vm, n) && DifferOnlyAt(v, v', n) && m != n
    requires m == if vm.Bound() then vm.status.nodeName else vm.spec.nodeName
    requires FindNode(v.nodes, m) == FindNode(v'.nodes, m)
    ensures Decide(vm, v) == Decide(vm, v')
  {
    hide SpecProblem, DecideFound, BoundVMs, Shortage, PortTaken, FindNode, Without;
    if vm.Bound() {
      assert RuntimeProblem(m, v) == RuntimeProblem(m, v');
    } else {
      SamePinned(vm, n, v, v', m);
      hide Schedule;
    }
  }

  lemma SamePinned(vm: SmolVM, n: string, v: View, v': View, m: string)
    requires m != n && m != "" && vm.spec.nodeName == m && DifferOnlyAt(v, v', n) && FindNode(v.nodes, m) == FindNode(v'.nodes, m)
    ensures Schedule(vm, v.nodes, v.vms, v.kube, v.now) == Schedule(vm, v'.nodes, v'.vms, v'.kube, v'.now)
  {
    hide BoundVMs, Shortage, PortTaken, FindNode, Without, FirstFit, Eligible;
    assert m in v.kube <==> m in v.kube - {n};
    assert m in v'.kube <==> m in v'.kube - {n};
    if m in v.kube {
      assert v.kube[m] == (v.kube - {n})[m] == (v'.kube - {n})[m] == v'.kube[m];
    }
  }

  // ---- The filter wakes no more than it must ----------------------------------------

  /** Exactness: for a valid VM under way (finalized, not being deleted) the filter selects it
      exactly when some change confined to that node's objects changes what its reconcile does. */
  lemma WakeupExact(vm: SmolVM, n: string)
    requires n != "" && !vm.deleting && vm.finalizer && SpecProblem(vm).None?
    ensures Concerned(vm, n) <==> exists v, v' :: DifferOnlyAt(v, v', n) && Decide(vm, v) != Decide(vm, v')
  {
    if Concerned(vm, n) {
      var v, v' := Bare(n), Lone(n, vm.spec.nodeSelector);
      assert v.kube - {n} == v'.kube - {n};
      assert DifferOnlyAt(v, v', n) by {
        assert Without(v'.nodes, n) == [] + Without([], n);
      }
      Affected(vm, n);
    } else {
      forall v, v' | DifferOnlyAt(v, v', n) ensures Decide(vm, v) == Decide(vm, v') {
        var m := if vm.Bound() then vm.status.nodeName else vm.spec.nodeName;
        FindWithout(v.nodes, n, m);
        FindWithout(v'.nodes, n, m);
        SameDecision(vm, n, v, v', m);
      }
    }
  }

  lemma Affected(vm: SmolVM, n: string)
    requires Concerned(vm, n) && n != "" && !vm.deleting && vm.finalizer && SpecProblem(vm).None?
    ensures Decide(vm, Bare(n)) != Decide(vm, Lone(n, vm.spec.nodeSelector))
  {
    hide RuntimeProblem, SpecProblem, CreateRequestFor, Schedule;
    if vm.Bound() {
      LoneUsable(n, vm.spec.nodeSelector);
    } else {
      LonePlaces(n, vm);
      BarePlaces(n, vm);
      assert Binding(vm, n).nodeName == n;
    }
  }
}
