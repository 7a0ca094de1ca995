/** What makes a node suit a VM, on the fields of the objects themselves, and that the scheduler
    accepts exactly the nodes that suit. */
module Suitability {
  import opened Types
  import opened Capacity
  import opened Scheduler
  import opened Decision
  import opened Protocol
  import opened Safety
  import opened Runs
  import opened Allocation

  /** The VM counts against the node: another VM with the node in its status, not being deleted. */
  predicate Occupies(item: SmolVM, n: string, pending: SmolVM) {
    item.uid != pending.uid && item.status.nodeName == n && n != "" && !item.deleting
  }

  /** No VM that counts against the node asks for a host port the VM asks for. */
  predicate PortsFree(vms: seq<SmolVM>, n: string, vm: SmolVM) {
    forall e, i, j :: 0 <= e < |vms| && Occupies(vms[e], n, vm) && 0 <= i < |vm.spec.ports| && 0 <= j < |vms[e].spec.ports| ==>
      vm.spec.ports[i].hostPort != vms[e].spec.ports[j].hostPort
  }

  function OccupiedCpus(vms: seq<SmolVM>, n: string, vm: SmolVM): seq<int> {
    seq(|vms|, i requires 0 <= i < |vms| => if Occupies(vms[i], n, vm) then vms[i].spec.cpus else 0)
  }

  function OccupiedMemory(vms: seq<SmolVM>, n: string, vm: SmolVM): seq<int> {
    seq(|vms|, i requires 0 <= i < |vms| => if Occupies(vms[i], n, vm) then vms[i].spec.memoryMiB else 0)
  }

  function OccupiedStorage(vms: seq<SmolVM>, n: string, vm: SmolVM): seq<int> {
    seq(|vms|, i requires 0 <= i < |vms| => if Occupies(vms[i], n, vm) then vms[i].spec.storageGiB + vms[i].spec.overlayGiB else 0)
  }

  /** The request fits on top of what is occupied, in every resource the node limits. */
  predicate HasRoom(a: Allocatable, vms: seq<SmolVM>, n: string, vm: SmolVM) {
    && (a.cpus > 0 ==> Sum(OccupiedCpus(vms, n, vm)) + vm.spec.cpus <= a.cpus)
    && (a.memoryMiB > 0 ==> Sum(OccupiedMemory(vms, n, vm)) + vm.spec.memoryMiB <= a.memoryMiB)
    && (a.storageGiB > 0 ==> Sum(OccupiedStorage(vms, n, vm)) + vm.spec.storageGiB + vm.spec.overlayGiB <= a.storageGiB)
  }

  predicate Suits(node: SmolVMNode, vm: SmolVM, vms: seq<SmolVM>, kube: map<string, KubeNode>, now: Time) {
    && ReportedUp(node.status, now) && LabelsFit(node.labels, vm.spec.nodeSelector) && KubeTakes(kube, node.name)
    && PortsFree(vms, node.name, vm) && HasRoom(node.status.allocatable, vms, node.name, vm)
  }

  /** No request is negative and no total leaves the width it is summed in. */
  predicate InRange(vms: seq<SmolVM>, n: string, vm: SmolVM) {
    && NonNegative(vm.spec) && (forall i :: 0 <= i < |vms| ==> NonNegative(vms[i].spec)) && |vms| < 0x1_0000_0000
    && Sum(OccupiedCpus(vms, n, vm)) + vm.spec.cpus < 0x8000_0000
    && Sum(OccupiedStorage(vms, n, vm)) + vm.spec.storageGiB + vm.spec.overlayGiB < 0x8000_0000_0000_0000
  }

  // ---- Part by part -----------------------------------------------------------------

  lemma {:induction false} BoundColumns(vms: seq<SmolVM>, n: string, vm: SmolVM)
    ensures var bound := BoundVMs(vms, vm);
            && Sum(CpuColumn(bound, n)) == Sum(OccupiedCpus(vms, n, vm))
            && Sum(MemoryColumn(bound, n)) == Sum(OccupiedMemory(vms, n, vm))
            && Sum(StorageColumn(bound, n)) == Sum(OccupiedStorage(vms, n, vm))
  {
    hide Sum, CpuColumn, MemoryColumn, StorageColumn, OccupiedCpus, OccupiedMemory, OccupiedStorage;
    if vms == [] {
      Empty(n, vm);
    } else {
      var l := |vms| - 1;
      BoundColumns(vms[..l], n, vm);
      OneMoreListed(vms, n, vm);
      OneMore(BoundVMs(vms[..l], vm), vms[l], n);
      assert BoundVMs(vms, vm) == BoundVMs(vms[..l], vm) + if CountsAsBound(vms[l], vm) then [vms[l]] else [];
      assert BoundVMs(vms[..l], vm) + [] == BoundVMs(vms[..l], vm);
    }
  }

  lemma Empty(n: string, vm: SmolVM)
    ensures Sum(CpuColumn([], n)) == Sum(OccupiedCpus([], n, vm)) == 0
    ensures Sum(MemoryColumn([], n)) == Sum(OccupiedMemory([], n, vm)) == 0
    ensures Sum(StorageColumn([], n)) == Sum(OccupiedStorage([], n, vm)) == 0
  {
  }

  lemma OneMoreListed(vms: seq<SmolVM>, n: string, vm: SmolVM)
    requires vms != []
    ensures var front, item := vms[..|vms| - 1], vms[|vms| - 1];
            var on := Occupies(item, n, vm);
            && Sum(OccupiedCpus(vms, n, vm)) == Sum(OccupiedCpus(front, n, vm)) + (if on then item.spec.cpus else 0)
            && Sum(OccupiedMemory(vms, n, vm)) == Sum(OccupiedMemory(front, n, vm)) + (if on then item.spec.memoryMiB else 0)
            && Sum(OccupiedStorage(vms, n, vm)) ==
               Sum(OccupiedStorage(front, n, vm)) + (if on then item.spec.storageGiB + item.spec.overlayGiB else 0)
  {
    var l := |vms| - 1;
    hide Occupies;
    assert OccupiedCpus(vms, n, vm)[..l] == OccupiedCpus(vms[..l], n, vm);
    assert OccupiedMemory(vms, n, vm)[..l] == OccupiedMemory(vms[..l], n, vm);
    assert OccupiedStorage(vms, n, vm)[..l] == OccupiedStorage(vms[..l], n, vm);
  }

  lemma OneMore(bound: seq<SmolVM>, item: SmolVM, n: string)
    ensures Sum(CpuColumn(bound + [item], n)) == Sum(CpuColumn(bound, n)) + if item.status.nodeName == n then item.spec.cpus else 0
    ensures Sum(MemoryColumn(bound + [item], n)) == Sum(MemoryColumn(bound, n)) + if item.status.nodeName == n then item.spec.memoryMiB else 0
    ensures Sum(StorageColumn(bound + [item], n)) ==
            Sum(StorageColumn(bound, n)) + if item.status.nodeName == n then item.spec.storageGiB + item.spec.overlayGiB else 0
  {
    var l := |bound|;
    assert CpuColumn(bound + [item], n)[..l] == CpuColumn(bound, n);
    assert MemoryColumn(bound + [item], n)[..l] == MemoryColumn(bound, n);
    assert StorageColumn(bound + [item], n)[..l] == StorageColumn(bound, n);
  }

  lemma PortsExactly(vms: seq<SmolVM>, n: string, vm: SmolVM)
    requires n != ""
    ensures PortTaken(n, vm, BoundVMs(vms, vm)) <==> !PortsFree(vms, n, vm)
  {
    hide BoundVMs, PortTaken, PortsFree;
    if PortTaken(n, vm, BoundVMs(vms, vm)) {
      TakenNotFree(vms, n, vm);
    }
    if !PortsFree(vms, n, vm) {
      NotFreeTaken(vms, n, vm);
    }
  }

  lemma TakenNotFree(vms: seq<SmolVM>, n: string, vm: SmolVM)
    requires n != "" && PortTaken(n, vm, BoundVMs(vms, vm))
    ensures !PortsFree(vms, n, vm)
  {
    hide BoundVMs;
    var bound := BoundVMs(vms, vm);
    var b :| 0 <= b < |bound| && bound[b].status.nodeName == n && Overlap(vm.spec.ports, bound[b].spec.ports);
    assert bound[b] in bound;
    var e :| 0 <= e < |vms| && vms[e] == bound[b];
    assert Occupies(vms[e], n, vm);
    var i, j :| 0 <= i < |vm.spec.ports| && 0 <= j < |bound[b].spec.ports| && vm.spec.ports[i].hostPort == bound[b].spec.ports[j].hostPort;
  }

  lemma NotFreeTaken(vms: seq<SmolVM>, n: string, vm: SmolVM)
    requires n != "" && !PortsFree(vms, n, vm)
    ensures PortTaken(n, vm, BoundVMs(vms, vm))
  {
    hide BoundVMs;
    var bound := BoundVMs(vms, vm);
    var e, i, j :| 0 <= e < |vms| && Occupies(vms[e], n, vm) && 0 <= i < |vm.spec.ports| && 0 <= j < |vms[e].spec.ports|
                   && vm.spec.ports[i].hostPort == vms[e].spec.ports[j].hostPort;
    assert vms[e] in bound;
    var b :| 0 <= b < |bound| && bound[b] == vms[e];
    assert Overlap(vm.spec.ports, bound[b].spec.ports);
  }

  lemma RoomExactly(node: SmolVMNode, vms: seq<SmolVM>, vm: SmolVM)
    requires InRange(vms, node.name, vm)
    ensures Shortage(node, vm, BoundVMs(vms, vm)).None? <==> HasRoom(node.status.allocatable, vms, node.name, vm)
  {
    hide Sum, CpuColumn, MemoryColumn, StorageColumn, OccupiedCpus, OccupiedMemory, OccupiedStorage, Shortage;
    var bound := BoundVMs(vms, vm);
    BoundColumns(vms, node.name, vm);
    BoundNonNegative(vms, vm);
    FitIsExact(node, vm, bound);
  }

  /** What makes a node acceptable apart from its capacity. */
  lemma RejectExactly(node: SmolVMNode, vm: SmolVM, vms: seq<SmolVM>, kube: map<string, KubeNode>, now: Time)
    requires node.name != ""
    ensures NodeReject(node, vm, BoundVMs(vms, vm), kube, now).None? <==>
            && ReportedUp(node.status, now) && LabelsFit(node.labels, vm.spec.nodeSelector) && KubeTakes(kube, node.name)
            && PortsFree(vms, node.name, vm) && Shortage(node, vm, BoundVMs(vms, vm)).None?
  {
    PortsExactly(vms, node.name, vm);
    RejectMeaning(node, vm, BoundVMs(vms, vm), kube, now);
    hide NodeReject, ReportedUp, LabelsFit, KubeTakes, PortTaken, PortsFree, Shortage, BoundVMs;
  }

  /** A node is accepted exactly when it suits. */
  lemma AcceptedExactly(node: SmolVMNode, vm: SmolVM, vms: seq<SmolVM>, kube: map<string, KubeNode>, now: Time)
    requires node.name != "" && InRange(vms, node.name, vm)
    ensures NodeReject(node, vm, BoundVMs(vms, vm), kube, now).None? <==> Suits(node, vm, vms, kube, now)
  {
    hide NodeReject, BoundVMs, InRange, ReportedUp, LabelsFit, KubeTakes, PortsFree, HasRoom, Shortage;
    RejectExactly(node, vm, vms, kube, now);
    RoomExactly(node, vms, vm);
  }

  // ---- Placements and bindings ------------------------------------------------------

  predicate AllInRange(nodes: seq<SmolVMNode>, vm: SmolVM, vms: seq<SmolVM>) {
    forall i :: 0 <= i < |nodes| ==> nodes[i].name != "" && InRange(vms, nodes[i].name, vm)
  }

  /** The first node of the list that suits. */
  ghost predicate FirstSuiting(i: int, vm: SmolVM, nodes: seq<SmolVMNode>, vms: seq<SmolVM>, kube: map<string, KubeNode>, now: Time) {
    && 0 <= i < |nodes| && Suits(nodes[i], vm, vms, kube, now)
    && forall j :: 0 <= j < i ==> !Suits(nodes[j], vm, vms, kube, now)
  }

  /** The first node of the list with this name. */
  predicate FirstNamed(i: int, nodes: seq<SmolVMNode>, n: string) {
    0 <= i < |nodes| && nodes[i].name == n && forall j :: 0 <= j < i ==> nodes[j].name != n
  }

  lemma {:induction false} FindExactly(nodes: seq<SmolVMNode>, n: string)
    ensures FindNode(nodes, n).None? <==> forall i :: 0 <= i < |nodes| ==> nodes[i].name != n
    ensures FindNode(nodes, n).Some? ==> exists i :: FirstNamed(i, nodes, n) && nodes[i] == FindNode(nodes, n).value
  {
    if nodes != [] && nodes[0].name == n {
      assert FirstNamed(0, nodes, n);
    } else if nodes != [] {
      FindExactly(nodes[1..], n);
      assert forall i :: 1 <= i < |nodes| ==> nodes[i] == nodes[1..][i - 1];
      if FindNode(nodes, n).Some? {
        var i :| FirstNamed(i, nodes[1..], n) && nodes[1..][i] == FindNode(nodes[1..], n).value;
        assert FirstNamed(i + 1, nodes, n);
      }
    }
  }

  /** Without a pin the VM goes to the first node that suits, and nowhere exactly when none does; with
      a pin it goes to the node of that name exactly when that one suits. */
  lemma PlacedSuits(vm: SmolVM, nodes: seq<SmolVMNode>, vms: seq<SmolVM>, kube: map<string, KubeNode>, now: Time)
    requires AllInRange(nodes, vm, vms)
    ensures var r := Schedule(vm, nodes, vms, kube, now);
            if vm.spec.nodeName == "" then
              && (r.Placed? <==> exists i :: FirstSuiting(i, vm, nodes, vms, kube, now))
              && (r.Placed? ==> exists i :: FirstSuiting(i, vm, nodes, vms, kube, now) && nodes[i].name == r.node)
            else
              && (r.Placed? <==> exists i :: FirstNamed(i, nodes, vm.spec.nodeName) && Suits(nodes[i], vm, vms, kube, now))
              && (r.Placed? ==> r.node == vm.spec.nodeName)
  {
    hide NodeReject, BoundVMs, InRange, Suits, Schedule, FindNode, AllRejected;
    var bound := BoundVMs(vms, vm);
    ScheduleExact(vm, nodes, vms, kube, now, bound);
    forall i | 0 <= i < |nodes| ensures NodeReject(nodes[i], vm, bound, kube, now).None? <==> Suits(nodes[i], vm, vms, kube, now) {
      AcceptedExactly(nodes[i], vm, vms, kube, now);
    }
    assert forall i :: FirstAccepted(i, nodes, vm, bound, kube, now) <==> FirstSuiting(i, vm, nodes, vms, kube, now);
    if vm.spec.nodeName != "" {
      FindExactly(nodes, vm.spec.nodeName);
    }
  }

  /** Every binding a run commits names a node that was listed and suited the VM, on the fields of
      what the reconcile saw; its room is as computed where no total left its width. */
  lemma BindingSuits(states: seq<Cluster>, steps: seq<Step>, i: nat)
    requires GoodRun(states, steps) && i < |steps| && Binds(states[i], steps[i])
    ensures var w := WorkerOf(states[i], steps[i].k);
            var n := w.status.nodeName;
            exists node :: node in w.view.nodes && node.name == n
                           && ReportedUp(node.status, w.view.now) && LabelsFit(node.labels, w.vm.spec.nodeSelector)
                           && KubeTakes(w.view.kube, n) && PortsFree(w.view.vms, n, w.vm)
                           && (InRange(w.view.vms, n, w.vm) ==> HasRoom(node.status.allocatable, w.view.vms, n, w.vm))
  {
    hide Inv, ReadsAgree, Schedule, VmOk, Later, SpecProblem, Same, InRange, HasRoom, ReportedUp, LabelsFit, KubeTakes, PortsFree,
      Shortage, NodeReject, BoundVMs, FirstAccepted, AllRejected;
    RunInv(states, steps, i);
    DraftedFacts(states[i], steps[i].k);
    var w := WorkerOf(states[i], steps[i].k);
    var bound := BoundVMs(w.view.vms, w.vm);
    ScheduleExact(w.vm, w.view.nodes, w.view.vms, w.view.kube, w.view.now, bound);
    var node :| node in w.view.nodes && node.name == w.status.nodeName
                && NodeReject(node, w.vm, bound, w.view.kube, w.view.now).None?;
    RejectExactly(node, w.vm, w.view.vms, w.view.kube, w.view.now);
    if InRange(w.view.vms, w.status.nodeName, w.vm) {
      RoomExactly(node, w.view.vms, w.vm);
    }
  }
}
