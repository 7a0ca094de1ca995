/** Allocation over whole runs: nodes are never promised more than they have, and no host port
    twice. */
module Allocation {
  import opened Types
  import opened StatusWriter
  import opened Capacity
  import opened Scheduler
  import opened Decision
  import opened Sweeper
  import opened Protocol
  import opened Safety
  import opened Runs

  datatype Demand = Demand(cpu: int, memory: int, storage: int, ports: seq<VMPort>)

  function DemandOf(spec: Spec): Demand {
    Demand(Need(spec, CPU), Need(spec, Memory), Need(spec, Storage), spec.ports)
  }

  function Part(x: Demand, d: Dimension): int {
    match d
    case CPU => x.cpu
    case Memory => x.memory
    case Storage => x.storage
  }

  predicate HasHost(ports: seq<VMPort>, host: int) {
    exists j :: 0 <= j < |ports| && ports[j].hostPort == host
  }

  predicate HostsWithin(a: seq<VMPort>, b: seq<VMPort>) {
    forall i :: 0 <= i < |a| ==> HasHost(b, a[i].hostPort)
  }

  /** No more of anything, and no other host port. */
  predicate Fewer(x: Demand, y: Demand) {
    x.cpu <= y.cpu && x.memory <= y.memory && x.storage <= y.storage && HostsWithin(x.ports, y.ports)
  }

  lemma FewerOverlap(x: Demand, y: Demand, others: seq<VMPort>)
    requires Fewer(x, y) && Overlap(x.ports, others)
    ensures Overlap(y.ports, others)
  {
    var i, j :| 0 <= i < |x.ports| && 0 <= j < |others| && x.ports[i].hostPort == others[j].hostPort;
    assert HasHost(y.ports, x.ports[i].hostPort);
    var h :| 0 <= h < |y.ports| && y.ports[h].hostPort == x.ports[i].hostPort;
  }

  lemma FewerSelf(x: Demand)
    ensures Fewer(x, x)
  {
  }

  /** The VM of this name, if it exists, is bound to the node and is not being deleted. */
  predicate LiveOn(s: Cluster, k: Key, n: string) {
    n != "" && Cur(s, k).At? && Cur(s, k).vm.status.nodeName == n && !Cur(s, k).vm.deleting
  }

  /** What the live VMs of a node ask for. */
  function Loads(s: Cluster, n: string): map<Key, Demand> {
    map k | k in s.store && LiveOn(s, k, n) :: DemandOf(Cur(s, k).vm.spec)
  }

  ghost function Total(m: map<Key, Demand>, d: Dimension): int {
    if m == map[] then 0
    else
      var k :| k in m;
      Part(m[k], d) + Total(m - {k}, d)
  }

  lemma {:induction false} TotalRemove(m: map<Key, Demand>, d: Dimension, k: Key)
    requires k in m
    ensures Total(m, d) == Part(m[k], d) + Total(m - {k}, d)
    decreases |m|
  {
    var c :| c in m && Total(m, d) == Part(m[c], d) + Total(m - {c}, d);
    if c != k {
      TotalRemove(m - {c}, d, k);
      TotalRemove(m - {k}, d, c);
      assert m - {c} - {k} == m - {k} - {c};
    }
  }

  predicate Below(m: map<Key, Demand>, bigger: map<Key, Demand>) {
    forall k :: k in m ==> k in bigger && Fewer(m[k], bigger[k]) && HostPortsDistinct(m[k].ports)
  }

  predicate AllNonNegative(m: map<Key, Demand>) {
    forall k :: k in m ==> m[k].cpu >= 0 && m[k].memory >= 0 && m[k].storage >= 0
  }

  predicate LessOf(m: map<Key, Demand>, bigger: map<Key, Demand>, d: Dimension) {
    && (forall k :: k in bigger ==> 0 <= Part(bigger[k], d))
    && (forall k :: k in m ==> k in bigger && 0 <= Part(m[k], d) <= Part(bigger[k], d))
  }

  lemma {:induction false} TotalBelow(m: map<Key, Demand>, bigger: map<Key, Demand>, d: Dimension)
    requires LessOf(m, bigger, d)
    ensures 0 <= Total(m, d) <= Total(bigger, d)
    decreases |bigger|
  {
    hide Part;
    if bigger == map[] {
      assert m == map[];
    } else {
      var k :| k in bigger;
      TotalRemove(bigger, d, k);
      TotalBelow(m - {k}, bigger - {k}, d);
      if k in m {
        TotalRemove(m, d, k);
      } else {
        assert m - {k} == m;
      }
    }
  }

  // ---- Lists that account for a node's live VMs --------------------------------------

  predicate Accounts(item: SmolVM, k: Key, n: string, x: Demand) {
    Key(item.namespace, item.name) == k && item.status.nodeName == n && Fewer(x, DemandOf(item.spec))
  }

  /** Every load appears in the list, as at least what it is, possibly among other entries. */
  ghost predicate Covered(m: map<Key, Demand>, n: string, list: seq<SmolVM>) {
    forall k :: k in m ==> exists i :: 0 <= i < |list| && Accounts(list[i], k, n, m[k])
  }

  lemma CoveredWithoutLast(m: map<Key, Demand>, n: string, list: seq<SmolVM>)
    requires list != [] && Covered(m, n, list)
    ensures var last := list[|list| - 1];
            var k := Key(last.namespace, last.name);
            Covered(if k in m && Accounts(last, k, n, m[k]) then m - {k} else m, n, list[..|list| - 1])
  {
    var last := list[|list| - 1];
    var kl := Key(last.namespace, last.name);
    var m' := if kl in m && Accounts(last, kl, n, m[kl]) then m - {kl} else m;
    var front := list[..|list| - 1];
    forall k | k in m' ensures exists i :: 0 <= i < |front| && Accounts(front[i], k, n, m'[k]) {
      var i :| 0 <= i < |list| && Accounts(list[i], k, n, m[k]);
      assert i != |list| - 1;
      assert front[i] == list[i];
    }
  }

  /** A list that covers the live VMs sums to at least what they ask for. */
  lemma {:induction false} TotalCovered(m: map<Key, Demand>, n: string, list: seq<SmolVM>, d: Dimension)
    requires Covered(m, n, list)
    requires forall i :: 0 <= i < |list| ==> NonNegative(list[i].spec)
    ensures Total(m, d) <= Used(list, n, d)
  {
    if list == [] {
      assert m == map[];
    } else {
      var last := list[|list| - 1];
      var k := Key(last.namespace, last.name);
      CoveredWithoutLast(m, n, list);
      if k in m && Accounts(last, k, n, m[k]) {
        TotalRemove(m, d, k);
        TotalCovered(m - {k}, n, list[..|list| - 1], d);
      } else {
        TotalCovered(m, n, list[..|list| - 1], d);
      }
    }
  }

  // ---- The invariant ----------------------------------------------------------------

  ghost predicate Within(m: map<Key, Demand>, a: Allocatable) {
    forall d :: Cap(a, d) > 0 ==> Total(m, d) <= Cap(a, d)
  }

  /** No host port twice: neither across the VMs of a node nor within one of them. */
  predicate PortsExclusive(m: map<Key, Demand>) {
    && (forall k :: k in m ==> HostPortsDistinct(m[k].ports))
    && (forall k, k' :: k in m && k' in m && k != k' ==> !Overlap(m[k].ports, m[k'].ports))
  }

  ghost predicate Allocated(s: Cluster, cap: map<string, Allocatable>) {
    forall n :: n in cap ==> Within(Loads(s, n), cap[n]) && PortsExclusive(Loads(s, n))
  }

  // ---- Hypotheses of the scheduler --------------------------------------------------

  /** The worker is about to commit a binding. */
  ghost predicate Binds(s: Cluster, step: Step) {
    && step.CommitStatus? && WorkerOf(s, step.k).Drafted?
    && WorkerOf(s, step.k).rv + 1 == |Hist(s, step.k)|
    && !WorkerOf(s, step.k).latest.Bound() && WorkerOf(s, step.k).status.nodeName != ""
  }

  /** The list used counts every VM now live on the node, with at least what it asks for now. */
  ghost predicate ListCurrent(s: Cluster, n: string, vms: seq<SmolVM>) {
    forall k :: k in Loads(s, n) ==>
      exists i :: 0 <= i < |vms| && Accounts(vms[i], k, n, Loads(s, n)[k]) && vms[i].uid == Cur(s, k).vm.uid && !vms[i].deleting
  }

  predicate NoOverflow(vm: SmolVM, n: string, bound: seq<SmolVM>) {
    && |bound| < 0x1_0000_0000
    && Sum(CpuColumn(bound, n)) + vm.spec.cpus < 0x8000_0000
    && Sum(StorageColumn(bound, n)) + vm.spec.storageGiB + vm.spec.overlayGiB < 0x8000_0000_0000_0000
  }

  /** What the scheduler takes for granted when a binding commits: it looked at the bound VMs as
      they are and at the node's real capacity, and its sums did not overflow. */
  ghost predicate FreshView(s: Cluster, k: Key, cap: map<string, Allocatable>)
    requires WorkerOf(s, k).Drafted?
  {
    var w := WorkerOf(s, k);
    var n := w.status.nodeName;
    && ListCurrent(s, n, w.view.vms)
    && (forall i :: 0 <= i < |w.view.vms| ==> NonNegative(w.view.vms[i].spec))
    && n in cap && (forall node :: node in w.view.nodes && node.name == n ==> node.status.allocatable == cap[n])
    && NoOverflow(w.vm, n, BoundVMs(w.view.vms, w.vm))
  }

  /** A VM is not edited to ask for more once it is bound, and bindings use a fresh view. */
  ghost predicate FreshStep(s: Cluster, step: Step, cap: map<string, Allocatable>) {
    && (step.UserEdit? && Cur(s, step.k).At? && Cur(s, step.k).vm.Bound() ==>
          Fewer(DemandOf(step.spec), DemandOf(Cur(s, step.k).vm.spec)))
    && (Binds(s, step) ==> FreshView(s, step.k, cap))
  }

  /** The version bound asks for no more than the version the scheduler saw. `EditKeepsExactly`
      shows that this is just what is needed. */
  ghost predicate BindsWhatWasSeen(s: Cluster, step: Step) {
    Binds(s, step) ==> Fewer(DemandOf(WorkerOf(s, step.k).latest.spec), DemandOf(WorkerOf(s, step.k).vm.spec))
  }

  ghost predicate FreshBind(s: Cluster, k: Key, cap: map<string, Allocatable>)
    requires WorkerOf(s, k).Drafted?
  {
    FreshView(s, k, cap) && Fewer(DemandOf(WorkerOf(s, k).latest.spec), DemandOf(WorkerOf(s, k).vm.spec))
  }

  ghost predicate Steady(s: Cluster, step: Step, cap: map<string, Allocatable>) {
    FreshStep(s, step, cap) && BindsWhatWasSeen(s, step)
  }

  // ---- Preservation -----------------------------------------------------------------

  lemma BelowKeeps(m: map<Key, Demand>, bigger: map<Key, Demand>, a: Allocatable)
    requires Below(m, bigger) && AllNonNegative(m) && AllNonNegative(bigger) && Within(bigger, a) && PortsExclusive(bigger)
    ensures Within(m, a) && PortsExclusive(m)
  {
    hide HostPortsDistinct, HostsWithin, Overlap;
    forall d ensures Total(m, d) <= Total(bigger, d) {
      assert LessOf(m, bigger, d);
      TotalBelow(m, bigger, d);
    }
    BelowPorts(m, bigger);
  }

  lemma BelowPorts(m: map<Key, Demand>, bigger: map<Key, Demand>)
    requires Below(m, bigger) && PortsExclusive(bigger)
    ensures PortsExclusive(m)
  {
    hide HostPortsDistinct, Overlap, Fewer;
    forall k, k' | k in m && k' in m && k != k' ensures !Overlap(m[k].ports, m[k'].ports) {
      if Overlap(m[k].ports, m[k'].ports) {
        FewerOverlap(m[k], bigger[k], m[k'].ports);
        OverlapSymmetric(bigger[k].ports, m[k'].ports);
        FewerOverlap(m[k'], bigger[k'], bigger[k].ports);
        OverlapSymmetric(bigger[k'].ports, bigger[k].ports);
      }
    }
  }

  lemma LoadsNonNegative(s: Cluster, n: string)
    requires Inv(s)
    ensures AllNonNegative(Loads(s, n))
  {
    hide Inv, LiveOn;
    forall k | k in Loads(s, n) ensures Loads(s, n)[k].cpu >= 0 && Loads(s, n)[k].memory >= 0 && Loads(s, n)[k].storage >= 0 {
      assert Cur(s, k).At? by { LiveAt(s, k, n); }
      CurrentAdmitted(s, k);
    }
  }

  lemma LiveAt(s: Cluster, k: Key, n: string)
    requires LiveOn(s, k, n)
    ensures Cur(s, k).At?
  {
  }

  /** A step after which every live VM was live before, asking for as much or more. */
  lemma ShrinkKeeps(s: Cluster, s': Cluster, cap: map<string, Allocatable>)
    requires Inv(s) && Allocated(s, cap)
    requires forall n :: n in cap ==> Below(Loads(s', n), Loads(s, n)) && AllNonNegative(Loads(s', n))
    ensures Allocated(s', cap)
  {
    hide Inv, Loads, Below, Within, PortsExclusive;
    forall n | n in cap ensures Within(Loads(s', n), cap[n]) && PortsExclusive(Loads(s', n)) {
      LoadsNonNegative(s, n);
      BelowKeeps(Loads(s', n), Loads(s, n), cap[n]);
    }
  }

  // ---- Adding one accepted VM -------------------------------------------------------

  /** The node takes the VM on top of the loads it carries, which the list covers. */
  ghost predicate Accepts(m: map<Key, Demand>, k: Key, vm: SmolVM, node: SmolVMNode, bound: seq<SmolVM>) {
    && k !in m && Covered(m, node.name, bound) && NonNegative(vm.spec)
    && (forall i :: 0 <= i < |bound| ==> NonNegative(bound[i].spec))
    && Shortage(node, vm, bound).None? && !PortTaken(node.name, vm, bound) && NoOverflow(vm, node.name, bound)
    && PortsExclusive(m)
  }

  /** What was accepted for one spec is safe for any spec that asks for no more. */
  lemma AddKeeps(m: map<Key, Demand>, k: Key, vm: SmolVM, spec: Spec, node: SmolVMNode, bound: seq<SmolVM>)
    requires Accepts(m, k, vm, node, bound)
    requires Fewer(DemandOf(spec), DemandOf(vm.spec)) && HostPortsDistinct(spec.ports)
    ensures Within(m[k := DemandOf(spec)], node.status.allocatable)
    ensures PortsExclusive(m[k := DemandOf(spec)])
  {
    AddFits(m, k, vm, spec, node, bound);
    AddPorts(m, k, vm, spec, node, bound);
  }

  lemma AddFits(m: map<Key, Demand>, k: Key, vm: SmolVM, spec: Spec, node: SmolVMNode, bound: seq<SmolVM>)
    requires Accepts(m, k, vm, node, bound) && Fewer(DemandOf(spec), DemandOf(vm.spec))
    ensures Within(m[k := DemandOf(spec)], node.status.allocatable)
  {
    var m' := m[k := DemandOf(spec)];
    UsedColumns(bound, node.name);
    FitIsExact(node, vm, bound);
    hide Shortage, Covered, Used, NoOverflow, PortTaken, PortsExclusive, HostsWithin, Sum, CpuColumn, MemoryColumn, StorageColumn;
    forall d | Cap(node.status.allocatable, d) > 0 ensures Total(m', d) <= Cap(node.status.allocatable, d) {
      TotalRemove(m', d, k);
      assert m' - {k} == m;
      TotalCovered(m, node.name, bound, d);
      assert ExactFit(node.status.allocatable, Used(bound, node.name, d), Need(vm.spec, d), d);
    }
  }

  lemma AddPorts(m: map<Key, Demand>, k: Key, vm: SmolVM, spec: Spec, node: SmolVMNode, bound: seq<SmolVM>)
    requires Covered(m, node.name, bound) && !PortTaken(node.name, vm, bound)
    requires Fewer(DemandOf(spec), DemandOf(vm.spec)) && HostPortsDistinct(spec.ports) && PortsExclusive(m)
    ensures PortsExclusive(m[k := DemandOf(spec)])
  {
    hide HostPortsDistinct, Overlap, Fewer;
    forall k' | k' in m ensures !Overlap(spec.ports, m[k'].ports) && !Overlap(m[k'].ports, spec.ports) {
      var i :| 0 <= i < |bound| && Accounts(bound[i], k', node.name, m[k']);
      OverlapSymmetric(spec.ports, m[k'].ports);
      if Overlap(spec.ports, m[k'].ports) {
        FewerOverlap(DemandOf(spec), DemandOf(vm.spec), m[k'].ports);
        OverlapSymmetric(vm.spec.ports, m[k'].ports);
        FewerOverlap(m[k'], DemandOf(bound[i].spec), vm.spec.ports);
        OverlapSymmetric(bound[i].spec.ports, vm.spec.ports);
      }
    }
  }

  lemma OverlapSymmetric(a: seq<VMPort>, b: seq<VMPort>)
    ensures Overlap(a, b) <==> Overlap(b, a)
  {
  }

  // ---- Steps ------------------------------------------------------------------------

  lemma SameLoads(s: Cluster, s': Cluster, n: string)
    requires s'.store == s.store
    ensures Loads(s', n) == Loads(s, n)
  {
    hide DemandOf;
    assert forall k :: Cur(s', k) == Cur(s, k);
  }

  lemma SameStore(s: Cluster, s': Cluster, cap: map<string, Allocatable>)
    requires s'.store == s.store && Allocated(s, cap)
    ensures Allocated(s', cap)
  {
    hide Within, PortsExclusive, Loads;
    forall n | n in cap ensures Within(Loads(s', n), cap[n]) && PortsExclusive(Loads(s', n)) {
      SameLoads(s, s', n);
    }
  }

  /** The log of `k` grew to a version that, where it is live, was live before with the same demand. */
  ghost predicate Grew(s: Cluster, s': Cluster, k: Key) {
    && s'.store.Keys <= s.store.Keys + {k}
    && (forall k' :: k' != k ==> Cur(s', k') == Cur(s, k'))
  }

  /** The newest version, where it is live, asks for no more than the one before, which was live. */
  ghost predicate Milder(s: Cluster, s': Cluster, k: Key) {
    Cur(s', k).At? ==>
      && Admitted(Cur(s', k).vm.spec)
      && forall n :: LiveOn(s', k, n) ==> LiveOn(s, k, n) && Fewer(DemandOf(Cur(s', k).vm.spec), DemandOf(Cur(s, k).vm.spec))
  }

  lemma GrewBelow(s: Cluster, s': Cluster, k: Key, cap: map<string, Allocatable>)
    requires Inv(s) && Allocated(s, cap) && Grew(s, s', k) && Milder(s, s', k)
    ensures Allocated(s', cap)
  {
    hide Inv, Allocated, Grew, Milder, Below, AllNonNegative, Loads;
    forall n | n in cap ensures Below(Loads(s', n), Loads(s, n)) && AllNonNegative(Loads(s', n)) {
      LoadsNonNegative(s, n);
      LoadsDistinct(s, n, cap);
      MilderLoads(s, s', k, n);
    }
    ShrinkKeeps(s, s', cap);
  }

  lemma MilderLoads(s: Cluster, s': Cluster, k: Key, n: string)
    requires Grew(s, s', k) && Milder(s, s', k) && AllNonNegative(Loads(s, n))
    requires forall k' :: k' in Loads(s, n) ==> HostPortsDistinct(Loads(s, n)[k'].ports)
    ensures Below(Loads(s', n), Loads(s, n)) && AllNonNegative(Loads(s', n))
  {
    hide HostPortsDistinct, Fewer;
    forall k' | k' in Loads(s', n)
      ensures k' in Loads(s, n) && Fewer(Loads(s', n)[k'], Loads(s, n)[k']) && HostPortsDistinct(Loads(s', n)[k'].ports)
    {
      assert LiveOn(s, k', n);
      FewerSelf(Loads(s', n)[k']);
    }
  }

  lemma LoadsDistinct(s: Cluster, n: string, cap: map<string, Allocatable>)
    requires Allocated(s, cap) && n in cap
    ensures forall k :: k in Loads(s, n) ==> HostPortsDistinct(Loads(s, n)[k].ports)
  {
    hide Within, Loads, Overlap, HostPortsDistinct;
  }

  lemma AppendGrew(s: Cluster, k: Key, v: Version)
    ensures Grew(s, Append(s, k, v), k) && Cur(Append(s, k, v), k) == v
  {
  }

  lemma CommittedGrew(s: Cluster, k: Key, v: Version, abandoned: map<string, string>)
    ensures Grew(s, Committed(s, k, v, abandoned), k) && Cur(Committed(s, k, v, abandoned), k) == v
  {
  }

  /** What a draft on top of its log says about the VM it binds. */
  lemma DraftedFacts(s: Cluster, k: Key)
    requires Inv(s) && WorkerOf(s, k).Drafted? && WorkerOf(s, k).rv + 1 == |Hist(s, k)|
    ensures var w := WorkerOf(s, k);
            && Cur(s, k) == At(w.latest) && DraftOk(w.vm, w.view, w.latest, w.status, k, s.births)
            && VmOk(w.latest, k, s.births)
  {
    hide Inv, HistOk, VmOk, DraftOk;
    InvKey(s, k);
    KeyHist(s, k);
    VersionOk(s, k, |Hist(s, k)| - 1);
  }

  lemma UidsDiffer(s: Cluster, k: Key, k': Key)
    requires Inv(s) && k != k' && Cur(s, k).At? && Cur(s, k').At?
    ensures Cur(s, k).vm.uid != Cur(s, k').vm.uid
  {
    hide KeyOk, HistOk, Coherent, StableMachineName, MachinesOk, SweepsOk, AbandonedOk;
    InvKey(s, k);
    InvKey(s, k');
    KeyHist(s, k);
    KeyHist(s, k');
    VersionOk(s, k, |Hist(s, k)| - 1);
    VersionOk(s, k', |Hist(s, k')| - 1);
  }

  /** The VMs the scheduler counted cover the live VMs of the node. */
  lemma BoundCovers(s: Cluster, k: Key, n: string, vms: seq<SmolVM>, vm: SmolVM)
    requires Inv(s) && ListCurrent(s, n, vms) && n != "" && Cur(s, k).At? && Cur(s, k).vm.uid == vm.uid && !Cur(s, k).vm.Bound()
    ensures Covered(Loads(s, n), n, BoundVMs(vms, vm)) && k !in Loads(s, n)
  {
    hide Inv, DemandOf;
    var bound := BoundVMs(vms, vm);
    forall k' | k' in Loads(s, n) ensures exists j :: 0 <= j < |bound| && Accounts(bound[j], k', n, Loads(s, n)[k']) {
      var i :| 0 <= i < |vms| && Accounts(vms[i], k', n, Loads(s, n)[k']) && vms[i].uid == Cur(s, k').vm.uid && !vms[i].deleting;
      UidsDiffer(s, k, k');
      assert vms[i] in vms && CountsAsBound(vms[i], vm);
      var j :| 0 <= j < |bound| && bound[j] == vms[i];
    }
  }

  lemma AcceptedNode(vm: SmolVM, view: View, n: string) returns (node: SmolVMNode)
    requires Schedule(vm, view.nodes, view.vms, view.kube, view.now) == Placed(n)
    ensures node in view.nodes && node.name == n
    ensures var bound := BoundVMs(view.vms, vm); Shortage(node, vm, bound).None? && !PortTaken(n, vm, bound)
  {
    hide Schedule, BoundVMs, Shortage, PortTaken, FirstAccepted, AllRejected, Eligible, MatchesSelector;
    var bound := BoundVMs(view.vms, vm);
    ScheduleExact(vm, view.nodes, view.vms, view.kube, view.now, bound);
    node :| node in view.nodes && node.name == n && NodeReject(node, vm, bound, view.kube, view.now).None?;
  }

  /** A committed binding adds one load to its node and changes no other. */
  lemma BindLoads(s: Cluster, s': Cluster, k: Key, latest: SmolVM, st: Status, n: string)
    requires Grew(s, s', k) && s.store.Keys <= s'.store.Keys && k in s'.store
    requires Cur(s, k) == At(latest) && !latest.Bound() && !latest.deleting && st.nodeName != ""
    requires Cur(s', k) == At(latest.(status := st))
    ensures Loads(s', n) == if n == st.nodeName then Loads(s, n)[k := DemandOf(latest.spec)] else Loads(s, n)
  {
    hide DemandOf, Cur;
    assert LiveOn(s', k, n) <==> n == st.nodeName;
    assert !LiveOn(s, k, n);
    assert forall k' :: k' != k ==> LiveOn(s', k', n) == LiveOn(s, k', n);
    assert Loads(s', n).Keys == Loads(s, n).Keys + (if n == st.nodeName then {k} else {});
  }

  lemma BindKeeps(s: Cluster, s': Cluster, k: Key, cap: map<string, Allocatable>)
    requires Inv(s) && Allocated(s, cap) && Binds(s, CommitStatus(k)) && FreshBind(s, k, cap)
    requires Grew(s, s', k) && Cur(s', k) == At(WorkerOf(s, k).latest.(status := WorkerOf(s, k).status))
    requires k in s'.store && s.store.Keys <= s'.store.Keys
    ensures Allocated(s', cap)
  {
    hide Inv, Within, PortsExclusive, DemandOf, Covered, ListCurrent, BoundVMs, Schedule, NoOverflow, VmOk, Later, Same, Loads, Grew, Shortage, PortTaken, Fewer, Admitted;
    DraftedFacts(s, k);
    var w := WorkerOf(s, k);
    if w.latest.deleting {
      CurrentAdmitted(s, k);
      GrewBelow(s, s', k, cap);
    } else {
      AcceptedFits(s, k, cap);
      forall n' | n' in cap ensures Within(Loads(s', n'), cap[n']) && PortsExclusive(Loads(s', n')) {
        BindLoads(s, s', k, w.latest, w.status, n');
      }
    }
  }

  /** The node still fits with the new VM counted in. */
  lemma AcceptedFits(s: Cluster, k: Key, cap: map<string, Allocatable>)
    requires Inv(s) && Allocated(s, cap) && Binds(s, CommitStatus(k)) && FreshBind(s, k, cap)
    ensures var n := WorkerOf(s, k).status.nodeName;
            var m := Loads(s, n)[k := DemandOf(WorkerOf(s, k).latest.spec)];
            Within(m, cap[n]) && PortsExclusive(m)
  {
    hide Inv, Within, PortsExclusive, DemandOf, Covered, ListCurrent, BoundVMs, Schedule, NoOverflow, VmOk, Later, Same, Loads, Shortage, PortTaken, Fewer, HostPortsDistinct;
    DraftedFacts(s, k);
    CurrentAdmitted(s, k);
    var w, n := WorkerOf(s, k), WorkerOf(s, k).status.nodeName;
    var node := AcceptedNode(w.vm, w.view, n);
    BoundCovers(s, k, n, w.view.vms, w.vm);
    BoundNonNegative(w.view.vms, w.vm);
    AddKeeps(Loads(s, n), k, w.vm, w.latest.spec, node, BoundVMs(w.view.vms, w.vm));
  }

  lemma BoundNonNegative(vms: seq<SmolVM>, vm: SmolVM)
    requires forall i :: 0 <= i < |vms| ==> NonNegative(vms[i].spec)
    ensures forall i :: 0 <= i < |BoundVMs(vms, vm)| ==> NonNegative(BoundVMs(vms, vm)[i].spec)
  {
    var bound := BoundVMs(vms, vm);
    forall i | 0 <= i < |bound| ensures NonNegative(bound[i].spec) {
      assert bound[i] in vms;
    }
  }

  /** Commits by users and workers that bind nothing. */
  lemma AppendKeeps(s: Cluster, s': Cluster, k: Key, v: Version, cap: map<string, Allocatable>)
    requires Inv(s) && Allocated(s, cap) && Grew(s, s', k) && Cur(s', k) == v
    requires v.At? ==> Admitted(v.vm.spec)
    requires v.At? && v.vm.Bound() ==>
               && Cur(s, k).At? && v.vm.status.nodeName == Cur(s, k).vm.status.nodeName
               && (!v.vm.deleting ==> !Cur(s, k).vm.deleting)
               && Fewer(DemandOf(v.vm.spec), DemandOf(Cur(s, k).vm.spec))
    ensures Allocated(s', cap)
  {
    hide Inv, Allocated, DemandOf, Grew, Fewer, Admitted;
    GrewBelow(s, s', k, cap);
  }

  lemma CommitStatusKeeps(s: Cluster, k: Key, cap: map<string, Allocatable>)
    requires Inv(s) && Allocated(s, cap) && WorkerOf(s, k).Drafted? && (Binds(s, CommitStatus(k)) ==> FreshBind(s, k, cap))
    ensures Allocated(AfterCommitStatus(s, k), cap)
  {
    hide Inv, Allocated, DemandOf, Grew, Committed, FreshBind, VmOk, Same, Fewer, Admitted;
    var w, s' := WorkerOf(s, k), AfterCommitStatus(s, k);
    if w.rv + 1 == |Hist(s, k)| {
      var v := At(w.latest.(status := w.status));
      CommittedGrew(s, k, v, s.abandoned);
      DraftedFacts(s, k);
      if Binds(s, CommitStatus(k)) {
        CommittedKeys(s, k, v, s.abandoned);
        BindKeeps(s, s', k, cap);
      } else {
        CurrentAdmitted(s, k);
        FewerSelf(DemandOf(w.latest.spec));
        AppendKeeps(s, s', k, v, cap);
      }
    } else {
      SameStore(s, s', cap);
    }
  }

  lemma CommittedKeys(s: Cluster, k: Key, v: Version, abandoned: map<string, string>)
    ensures Committed(s, k, v, abandoned).store.Keys == s.store.Keys + {k}
  {
  }

  lemma CommitObjectKeeps(s: Cluster, k: Key, cap: map<string, Allocatable>)
    requires Inv(s) && Allocated(s, cap) && WorkerOf(s, k).Planned?
    ensures Allocated(AfterCommitObject(s, k), cap)
  {
    hide Inv, Allocated, DemandOf, Grew, Committed, AfterDrop, KeyOk, HistOk, PlanFacts, PlanMachines, Fewer, Admitted;
    var w, s' := WorkerOf(s, k), AfterCommitObject(s, k);
    InvKey(s, k);
    PlannedFacts(s, k);
    if w.rv + 1 != |Hist(s, k)| {
      SameStore(s, s', cap);
    } else if w.plan.AddFinalizer? {
      CommittedGrew(s, k, At(w.vm.(finalizer := true)), s.abandoned);
      CurrentAdmitted(s, k);
      FewerSelf(DemandOf(w.vm.spec));
      AppendKeeps(s, s', k, At(w.vm.(finalizer := true)), cap);
    } else {
      CommittedGrew(s, k, Gone, AfterDrop(s, w.vm, w.plan));
      AppendKeeps(s, s', k, Gone, cap);
    }
  }

  lemma UserKeeps(s: Cluster, step: Step, cap: map<string, Allocatable>)
    requires Inv(s) && Allocated(s, cap) && Enabled(s, step) && Steady(s, step, cap)
    requires step.UserCreate? || step.UserEdit? || step.UserAnnotate? || step.UserDelete?
    ensures Allocated(Apply(s, step), cap)
  {
    hide Inv, Allocated, DemandOf, Grew, Append, StableMachineName, Binds, Admitted, Fewer, FreshBind;
    var k := step.k;
    if Cur(s, k).At? {
      CurrentAdmitted(s, k);
      FewerSelf(DemandOf(Cur(s, k).vm.spec));
    }
    match step
    case UserCreate(_, vm) =>
      var born := s.(births := s.births[StableMachineName(vm) := Birth(k, vm.uid, vm.spec.nodeName)]);
      AppendGrew(born, k, At(vm));
      BornGrew(s, born, Append(born, k, At(vm)), k);
      AppendKeeps(s, Append(born, k, At(vm)), k, At(vm), cap);
    case UserEdit(_, spec, generation) =>
      var v := At(Cur(s, k).vm.(spec := spec, generation := generation));
      AppendGrew(s, k, v);
      AppendKeeps(s, Append(s, k, v), k, v, cap);
    case UserAnnotate(_, annotations) =>
      var v := At(Cur(s, k).vm.(annotations := annotations));
      AppendGrew(s, k, v);
      AppendKeeps(s, Append(s, k, v), k, v, cap);
    case UserDelete(_, generation) =>
      var v := if Cur(s, k).vm.finalizer then At(Cur(s, k).vm.(deleting := true, generation := generation)) else Gone;
      AppendGrew(s, k, v);
      AppendKeeps(s, Append(s, k, v), k, v, cap);
  }

  lemma BornGrew(s: Cluster, born: Cluster, s': Cluster, k: Key)
    requires born.store == s.store && Grew(born, s', k)
    ensures Grew(s, s', k)
  {
    assert forall k' :: Cur(born, k') == Cur(s, k');
  }

  lemma StepKeeps(s: Cluster, step: Step, cap: map<string, Allocatable>)
    requires Inv(s) && Allocated(s, cap) && Enabled(s, step) && Steady(s, step, cap)
    ensures Allocated(Apply(s, step), cap)
  {
    hide Inv, Allocated, AfterCommitStatus, AfterCommitObject, AfterPerform, AfterReread, AfterLook, AfterFetch, Newborn, ListsAll,
      HonestView, HonestOutcome, FreshView, Fewer, Binds, Append, StableMachineName, Admitted, Doomed, OwnedNames;
    if step.CommitStatus? {
      CommitStatusKeeps(s, step.k, cap);
    } else if step.CommitObject? {
      CommitObjectKeeps(s, step.k, cap);
    } else if step.UserCreate? || step.UserEdit? || step.UserAnnotate? || step.UserDelete? {
      UserKeeps(s, step, cap);
    } else {
      if step.Fetch? || step.Look? || step.Perform? || step.Reread? || step.GiveUp? {
        ReconcileGrows(s, step, step.k);
      }
      SameStore(s, Apply(s, step), cap);
    }
  }

  lemma {:induction false} RunAllocated(states: seq<Cluster>, steps: seq<Step>, cap: map<string, Allocatable>, i: nat)
    requires GoodRun(states, steps) && i < |states|
    requires forall j :: 0 <= j < |steps| ==> Steady(states[j], steps[j], cap)
    ensures Allocated(states[i], cap)
  {
    hide Inv, Enabled, Apply, ReadsAgree, Steady, Init;
    if i == 0 {
      EmptyAllocated(states[0], cap);
    } else {
      RunAllocated(states, steps, cap, i - 1);
      RunInv(states, steps, i - 1);
      StepKeeps(states[i - 1], steps[i - 1], cap);
    }
  }

  lemma EmptyAllocated(s: Cluster, cap: map<string, Allocatable>)
    requires Init(s)
    ensures Allocated(s, cap)
  {
    forall n ensures Loads(s, n) == map[] {
    }
  }

  // ---- The law, on the fields themselves --------------------------------------------

  /** Different keys, each of an existing VM that has this node in its status and is not being
      deleted. */
  predicate LiveKeys(s: Cluster, n: string, ks: seq<Key>) {
    && (forall i, j :: 0 <= i < j < |ks| ==> ks[i] != ks[j])
    && (forall i :: 0 <= i < |ks| ==> LiveHere(s, n, ks[i]))
  }

  predicate LiveHere(s: Cluster, n: string, k: Key) {
    Cur(s, k).At? && Cur(s, k).vm.status.nodeName == n && !Cur(s, k).vm.deleting
  }

  /** Whichever live VMs of a node one adds up, their CPUs, their memory, and their storage and
      overlay disks together, are each at most what the node offers of it, if it offers a
      positive amount. */
  ghost predicate CapacityKept(s: Cluster, n: string, a: Allocatable) {
    forall ks | LiveKeys(s, n, ks) ::
      && (a.cpus > 0 ==> Sum(seq(|ks|, i requires 0 <= i < |ks| => Cur(s, ks[i]).vm.spec.cpus)) <= a.cpus)
      && (a.memoryMiB > 0 ==> Sum(seq(|ks|, i requires 0 <= i < |ks| => Cur(s, ks[i]).vm.spec.memoryMiB)) <= a.memoryMiB)
      && (a.storageGiB > 0 ==>
            Sum(seq(|ks|, i requires 0 <= i < |ks| => Cur(s, ks[i]).vm.spec.storageGiB + Cur(s, ks[i]).vm.spec.overlayGiB))
            <= a.storageGiB)
  }

  /** No two port entries of live VMs of a node, of one VM or of two, ask for the same host port. */
  ghost predicate PortsKept(s: Cluster, n: string) {
    && (forall k | LiveHere(s, n, k) :: HostPortsDistinct(Cur(s, k).vm.spec.ports))
    && (forall k, k' | LiveHere(s, n, k) && LiveHere(s, n, k') && k != k' ::
          NoCommonHost(Cur(s, k).vm.spec.ports, Cur(s, k').vm.spec.ports))
  }

  predicate NoCommonHost(a: seq<VMPort>, b: seq<VMPort>) {
    forall i, j :: 0 <= i < |a| && 0 <= j < |b| ==> a[i].hostPort != b[j].hostPort
  }

  lemma LiveLoads(s: Cluster, n: string, k: Key)
    requires LiveHere(s, n, k) && n != ""
    ensures k in Loads(s, n) && Loads(s, n)[k] == DemandOf(Cur(s, k).vm.spec)
  {
    hide DemandOf;
    assert LiveOn(s, k, n);
  }

  /** Adding up a column over some keys of a map gives at most the map's total. */
  lemma {:induction false} SumWithin(m: map<Key, Demand>, ks: seq<Key>, xs: seq<int>, d: Dimension)
    requires AllNonNegative(m) && |xs| == |ks|
    requires forall i, j :: 0 <= i < j < |ks| ==> ks[i] != ks[j]
    requires forall i :: 0 <= i < |ks| ==> ks[i] in m && xs[i] == Part(m[ks[i]], d)
    ensures Sum(xs) <= Total(m, d)
  {
    if ks == [] {
      assert LessOf(map[], m, d);
      TotalBelow(map[], m, d);
    } else {
      var l := |ks| - 1;
      TotalRemove(m, d, ks[l]);
      SumWithin(m - {ks[l]}, ks[..l], xs[..l], d);
    }
  }

  lemma CapacityFromLoads(s: Cluster, n: string, a: Allocatable)
    requires Inv(s) && n != "" && Within(Loads(s, n), a)
    ensures CapacityKept(s, n, a)
  {
    hide Inv, Loads, Sum, Total, Cur;
    LoadsNonNegative(s, n);
    var m := Loads(s, n);
    forall ks | LiveKeys(s, n, ks)
      ensures a.cpus > 0 ==> Sum(seq(|ks|, i requires 0 <= i < |ks| => Cur(s, ks[i]).vm.spec.cpus)) <= a.cpus
      ensures a.memoryMiB > 0 ==> Sum(seq(|ks|, i requires 0 <= i < |ks| => Cur(s, ks[i]).vm.spec.memoryMiB)) <= a.memoryMiB
      ensures a.storageGiB > 0 ==>
        Sum(seq(|ks|, i requires 0 <= i < |ks| => Cur(s, ks[i]).vm.spec.storageGiB + Cur(s, ks[i]).vm.spec.overlayGiB)) <= a.storageGiB
    {
      forall i | 0 <= i < |ks| ensures ks[i] in m && m[ks[i]] == DemandOf(Cur(s, ks[i]).vm.spec) {
        LiveLoads(s, n, ks[i]);
      }
      SumWithin(m, ks, seq(|ks|, i requires 0 <= i < |ks| => Cur(s, ks[i]).vm.spec.cpus), CPU);
      SumWithin(m, ks, seq(|ks|, i requires 0 <= i < |ks| => Cur(s, ks[i]).vm.spec.memoryMiB), Memory);
      SumWithin(m, ks, seq(|ks|, i requires 0 <= i < |ks| => Cur(s, ks[i]).vm.spec.storageGiB + Cur(s, ks[i]).vm.spec.overlayGiB), Storage);
      assert Cap(a, CPU) == a.cpus && Cap(a, Memory) == a.memoryMiB && Cap(a, Storage) == a.storageGiB;
    }
  }

  lemma PortsFromLoads(s: Cluster, n: string)
    requires n != "" && PortsExclusive(Loads(s, n))
    ensures PortsKept(s, n)
  {
    hide Loads, Cur;
    var m := Loads(s, n);
    forall k | LiveHere(s, n, k) ensures k in m && m[k].ports == Cur(s, k).vm.spec.ports {
      LiveLoads(s, n, k);
    }
  }

  /** Over every run in which bindings are fresh and bind what was seen, and bound VMs are not
      edited to ask for more: on each node the CPU, the memory, and the storage and overlay disks of
      the live bound VMs each sum to at most the positive allocatable value, and no host port
      occurs twice among them or within one of them. */
  lemma AllocationSafe(states: seq<Cluster>, steps: seq<Step>, cap: map<string, Allocatable>, i: nat)
    requires GoodRun(states, steps) && i < |states|
    requires forall j :: 0 <= j < |steps| ==> Steady(states[j], steps[j], cap)
    ensures Allocated(states[i], cap)
    ensures forall n :: n in cap && n != "" ==> CapacityKept(states[i], n, cap[n]) && PortsKept(states[i], n)
  {
    hide Inv, GoodRun, Steady, Loads, CapacityKept, PortsKept, Within, PortsExclusive;
    RunAllocated(states, steps, cap, i);
    RunInv(states, steps, i);
    forall n | n in cap && n != "" ensures CapacityKept(states[i], n, cap[n]) && PortsKept(states[i], n) {
      CapacityFromLoads(states[i], n, cap[n]);
      PortsFromLoads(states[i], n);
    }
  }
}
