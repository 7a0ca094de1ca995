/** Concrete nodes and views, for runs and states that show something can happen. */
module Samples {
  import opened Types
  import opened Capacity
  import opened Scheduler
  import opened Decision

  function Up(typ: string): Condition { Condition(typ, CondTrue, "", "", 0, 0) }

  /** A node that is up, empty and has no capacity limits. */
  function ReadyNode(name: string, labels: map<string, string>): SmolVMNode {
    SmolVMNode(name, labels,
               NodeStatus("", "", PROTOCOL, Some(0), Endpoint("", "", "10.0.0.1", 9443), Allocatable(0, 0, 0),
                          [Up("Ready"), Up("KVMAvailable"), Up("RuntimeReady"), Up("Schedulable")]))
  }

  /** No node object is listed; the runtime of `n` would answer, but fails to read machines. */
  function Bare(n: string): View {
    View([], map[], [], false, Answer(Some(true), Some(Identity(n, "")), Some("")), GetFailed(""), 0)
  }

  /** The same with one listed node, which carries the given labels. */
  function Lone(n: string, labels: map<string, string>): View {
    Bare(n).(nodes := [ReadyNode(n, labels)], kube := map[n := KubeNode("", map[], false, [KubeCondition("Ready", CondTrue)])])
  }

  /** The listed node offers this much. */
  function Offering(n: string, a: Allocatable): View {
    var node := ReadyNode(n, map[]);
    Lone(n, map[]).(nodes := [node.(status := node.status.(allocatable := a))])
  }

  lemma ReadyNodeEligible(n: string, labels: map<string, string>)
    ensures Eligible(ReadyNode(n, labels).status, 0)
  {
    var cs := ReadyNode(n, labels).status.conditions;
    assert cs[0].typ == "Ready" && cs[1].typ == "KVMAvailable" && cs[2].typ == "RuntimeReady" && cs[3].typ == "Schedulable";
    assert forall i :: 0 <= i < 4 ==> cs[i].status == CondTrue;
  }

  lemma LoneUsable(n: string, labels: map<string, string>)
    ensures RuntimeProblem(n, Lone(n, labels)).None? && RuntimeProblem(n, Bare(n)) == Some("get SmolVMNode")
  {
    ReadyNodeEligible(n, labels);
    hide Eligible;
  }

  lemma LonePlaces(n: string, vm: SmolVM)
    requires vm.spec.nodeName == "" || vm.spec.nodeName == n
    ensures var v := Lone(n, vm.spec.nodeSelector); Schedule(vm, v.nodes, v.vms, v.kube, v.now) == Placed(n)
  {
    ReadyNodeEligible(n, vm.spec.nodeSelector);
    hide Eligible;
    var v := Lone(n, vm.spec.nodeSelector);
    assert BoundVMs(v.vms, vm) == [];
    assert NodeReject(ReadyNode(n, vm.spec.nodeSelector), vm, [], v.kube, 0).None?;
  }

  lemma OfferingPlaces(n: string, a: Allocatable, vm: SmolVM)
    requires vm.spec.nodeName == "" && vm.spec.nodeSelector == map[]
    requires forall d :: Cap(a, d) > 0 ==> 0 <= Need(vm.spec, d) <= Cap(a, d)
    ensures var v := Offering(n, a); Schedule(vm, v.nodes, v.vms, v.kube, v.now) == Placed(n)
  {
    ReadyNodeEligible(n, map[]);
    var v := Offering(n, a);
    assert Eligible(v.nodes[0].status, 0);
    hide Eligible;
    assert BoundVMs(v.vms, vm) == [];
    assert forall d :: Used([], n, d) == 0;
    assert forall d :: Cap(a, d) > 0 ==> WrappedFit(a, 0, Need(vm.spec, d), d);
    assert Shortage(v.nodes[0], vm, []).None?;
    assert NodeReject(v.nodes[0], vm, [], v.kube, 0).None?;
  }

  lemma BarePlaces(n: string, vm: SmolVM)
    ensures var v := Bare(n);
            Schedule(vm, v.nodes, v.vms, v.kube, v.now) == if vm.spec.nodeName == "" then NoNodes else PinMissing
  {
  }
}
