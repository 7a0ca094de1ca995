/** Pins over whole runs: a pin the placing reconcile read is honoured for good; one added after
    that read may be missed. */
module Pins {
  import opened Types
  import opened Scheduler
  import opened Decision
  import opened Protocol
  import opened Safety
  import opened Runs
  import opened Allocation
  import opened Rebind
  import opened Samples

  lemma OneFirst(i: int, j: int, nodes: seq<SmolVMNode>, vm: SmolVM, bound: seq<SmolVM>, kube: map<string, KubeNode>, now: Time)
    requires FirstAccepted(i, nodes, vm, bound, kube, now) && FirstAccepted(j, nodes, vm, bound, kube, now)
    ensures i == j
  {
    hide NodeReject;
  }

  /** The first node in the list that has no reject reason is `n`. */
  ghost predicate FirstIs(n: string, vm: SmolVM, view: View) {
    exists j :: FirstAccepted(j, view.nodes, vm, BoundVMs(view.vms, vm), view.kube, view.now) && view.nodes[j].name == n
  }

  lemma PlacedExactly(vm: SmolVM, view: View, n: string, pin: string)
    requires Schedule(vm, view.nodes, view.vms, view.kube, view.now) == Placed(n)
    ensures if vm.spec.nodeName != "" then n == vm.spec.nodeName else n == pin <==> FirstIs(pin, vm, view)
  {
    hide Schedule, BoundVMs, AllRejected, FindNode, NodeReject;
    var bound := BoundVMs(view.vms, vm);
    ScheduleExact(vm, view.nodes, view.vms, view.kube, view.now, bound);
    if vm.spec.nodeName == "" {
      var i :| FirstAccepted(i, view.nodes, vm, bound, view.kube, view.now) && n == view.nodes[i].name;
      forall j | FirstAccepted(j, view.nodes, vm, bound, view.kube, view.now) ensures i == j {
        OneFirst(i, j, view.nodes, vm, bound, view.kube, view.now);
      }
    }
  }

  /** Every committed binding: a pin the reconcile read is still the pin and is where the VM
      goes. A pin on the committed version that the reconcile did not read is honoured exactly
      when first fit happened to choose that node. */
  lemma BindHonoursPin(states: seq<Cluster>, steps: seq<Step>, i: nat)
    requires GoodRun(states, steps) && i < |steps| && Binds(states[i], steps[i])
    ensures var w := WorkerOf(states[i], steps[i].k);
            var pin := w.latest.spec.nodeName;
            && Cur(states[i + 1], steps[i].k) == At(w.latest.(status := w.status))
            && (w.vm.spec.nodeName != "" ==> w.status.nodeName == pin == w.vm.spec.nodeName)
            && (pin != "" ==> (w.status.nodeName == pin <==> w.vm.spec.nodeName == pin || FirstIs(pin, w.vm, w.view)))
  {
    hide Inv, ReadsAgree, FirstIs, Schedule, VmOk, Newer, SpecProblem, Same;
    RunInv(states, steps, i);
    var k := steps[i].k;
    DraftedFacts(states[i], k);
    BindCommits(states[i], steps[i]);
    var w := WorkerOf(states[i], k);
    PlacedExactly(w.vm, w.view, w.status.nodeName, w.latest.spec.nodeName);
  }

  lemma BindCommits(s: Cluster, step: Step)
    requires Enabled(s, step) && Binds(s, step)
    ensures var w := WorkerOf(s, step.k); Cur(Apply(s, step), step.k) == At(w.latest.(status := w.status))
  {
    var w := WorkerOf(s, step.k);
    CommittedGrew(s, step.k, At(w.latest.(status := w.status)), s.abandoned);
    hide Committed;
  }

  /** A pin that is honoured once stays the pin and stays honoured, for as long as the VM exists. */
  lemma PinForever(states: seq<Cluster>, steps: seq<Step>, i: nat, j: nat, k: Key)
    requires GoodRun(states, steps) && i <= j < |states|
    requires Cur(states[i], k).At? && Cur(states[j], k).At? && Cur(states[i], k).vm.uid == Cur(states[j], k).vm.uid
    requires Cur(states[i], k).vm.Bound() && Cur(states[i], k).vm.spec.nodeName == Cur(states[i], k).vm.status.nodeName
    ensures var a, b := Cur(states[i], k).vm, Cur(states[j], k).vm;
            b.spec.nodeName == b.status.nodeName == a.spec.nodeName && SpecProblem(b) != Some(PinMoved)
  {
    hide Enabled, Apply, ReadsAgree, Inv, Init, StableMachineName;
    RunInv(states, steps, j);
    RunGrows(states, steps, i, j, k);
    SameUid(states[j], k, |Hist(states[i], k)| - 1);
  }

  /** Whatever the reconcile sees and its call returns, a node it names is the pinned one. */
  ghost predicate AlwaysHonours(s: Cluster, k: Key, pin: string)
    requires WorkerOf(s, k).Fetched?
  {
    forall view, outcome | Enabled(s, Look(k, view)) && Final(WorkerOf(s, k).vm, view, outcome).WriteStatus? ::
      Final(WorkerOf(s, k).vm, view, outcome).input.nodeName in ["", pin]
  }

  /** A later version's pin is honoured, against everything the placing reconcile may see, exactly
      when the first read showed a pin, or takes a branch that places nothing (being deleted,
      without finalizer, or invalid). Otherwise the branch for unpinned VMs is open, and some view
      sends the VM elsewhere. */
  lemma HonoursPinExactly(s: Cluster, k: Key, rv: nat)
    requires Inv(s) && WorkerOf(s, k).Fetched? && SeenOf(s, k) <= rv < |Hist(s, k)| && Hist(s, k)[rv].At?
    requires !WorkerOf(s, k).vm.Bound() && Hist(s, k)[rv].vm.spec.nodeName != ""
    ensures var vm := WorkerOf(s, k).vm;
            AlwaysHonours(s, k, Hist(s, k)[rv].vm.spec.nodeName) <==>
            vm.spec.nodeName != "" || vm.deleting || !vm.finalizer || SpecProblem(vm).Some?
  {
    hide Inv, KeyOk, Final, HonestView, Same, PinStays, SpecProblem;
    InvKey(s, k);
    var vm, pin := WorkerOf(s, k).vm, Hist(s, k)[rv].vm.spec.nodeName;
    FetchedPin(s, k, rv);
    if vm.spec.nodeName != "" || vm.deleting || !vm.finalizer || SpecProblem(vm).Some? {
      forall view, outcome | Enabled(s, Look(k, view)) && Final(vm, view, outcome).WriteStatus?
        ensures Final(vm, view, outcome).input.nodeName in ["", pin]
      {
        UnboundNode(vm, view, outcome);
      }
    } else {
      var other := pin + "'";
      var view := Lone(other, vm.spec.nodeSelector);
      assert other != pin by { assert |other| != |pin|; }
      Elsewhere(vm, other);
      LookEnabled(s, k, view);
      assert Final(vm, view, CallNotFound).input.nodeName == other;
    }
  }

  /** A pin read on a live finalized VM is the pin of every later version. */
  lemma FetchedPin(s: Cluster, k: Key, rv: nat)
    requires KeyOk(s, k) && WorkerOf(s, k).Fetched? && SeenOf(s, k) <= rv < |Hist(s, k)| && Hist(s, k)[rv].At?
    ensures var vm, latest := WorkerOf(s, k).vm, Hist(s, k)[rv].vm;
            vm.finalizer && !vm.deleting && vm.spec.nodeName != "" ==> latest.spec.nodeName == vm.spec.nodeName
  {
    hide HistOk, Same;
    ReadOrder(Hist(s, k), SeenOf(s, k), rv, k, s.births);
  }

  /** The node an unbound VM may be given: none, its pin, or without a pin the scheduler's choice. */
  lemma UnboundNode(vm: SmolVM, view: View, outcome: CallOutcome)
    requires !vm.Bound()
    ensures Final(vm, view, outcome).WriteStatus? ==>
              && !vm.deleting && vm.finalizer
              && (SpecProblem(vm).Some? ==> Final(vm, view, outcome).input.nodeName == "")
              && (vm.spec.nodeName != "" ==> Final(vm, view, outcome).input.nodeName in ["", vm.spec.nodeName])
  {
    ScheduleExact(vm, view.nodes, view.vms, view.kube, view.now, BoundVMs(view.vms, vm));
    hide Schedule, SpecProblem, BoundVMs, FirstAccepted, AllRejected, FindNode, NodeReject, PlacementText;
  }

  lemma Elsewhere(vm: SmolVM, n: string)
    requires !vm.deleting && vm.finalizer && SpecProblem(vm).None? && !vm.Bound() && vm.spec.nodeName == "" && n != ""
    ensures Final(vm, Lone(n, vm.spec.nodeSelector), CallNotFound) == WriteStatus(Binding(vm, n))
    ensures Binding(vm, n).nodeName == n
  {
    LonePlaces(n, vm);
    hide Schedule, SpecProblem;
  }
}
