/** Edits that slip in between the scheduler's look and the binding: which of them keep a node within
    its capacity and its host ports exclusive. */
module Edits {
  import opened Types
  import opened Capacity
  import opened Scheduler
  import opened Decision
  import opened Protocol
  import opened Runs
  import opened Allocation
  import opened Rebind
  import opened Samples
  import opened Races

  /** Wherever the version that was read is accepted, binding a version with this spec instead is
      safe. */
  ghost predicate SafeInstead(k: Key, vm: SmolVM, spec: Spec) {
    forall m, node, bound | Accepts(m, k, vm, node, bound) ::
      Within(m[k := DemandOf(spec)], node.status.allocatable) && PortsExclusive(m[k := DemandOf(spec)])
  }

  /** Exactly the edits that ask for no more of any resource and for no new host port are safe
      (a storage request beyond int64 is never accepted within range, so nothing can go wrong). */
  lemma EditKeepsExactly(k: Key, vm: SmolVM, spec: Spec)
    requires Admitted(vm.spec) && Admitted(spec)
    ensures SafeInstead(k, vm, spec) <==> Fewer(DemandOf(spec), DemandOf(vm.spec)) || Need(vm.spec, Storage) >= HALF64
  {
    hide Fewer, Accepts, Within, PortsExclusive, Admitted;
    if Need(vm.spec, Storage) >= HALF64 {
      forall m, node, bound ensures !Accepts(m, k, vm, node, bound) {
        NeverAccepted(m, k, vm, node, bound);
      }
    } else if Fewer(DemandOf(spec), DemandOf(vm.spec)) {
      forall m, node, bound | Accepts(m, k, vm, node, bound)
        ensures Within(m[k := DemandOf(spec)], node.status.allocatable) && PortsExclusive(m[k := DemandOf(spec)])
      {
        assert HostPortsDistinct(spec.ports) by { AdmittedParts(spec); }
        AddKeeps(m, k, vm, spec, node, bound);
      }
    } else {
      Unsafe(k, vm, spec);
    }
  }

  lemma AdmittedParts(spec: Spec)
    requires Admitted(spec)
    ensures NonNegative(spec) && HostPortsDistinct(spec.ports)
  {
  }

  lemma NeverAccepted(m: map<Key, Demand>, k: Key, vm: SmolVM, node: SmolVMNode, bound: seq<SmolVM>)
    requires Need(vm.spec, Storage) >= HALF64
    ensures !Accepts(m, k, vm, node, bound)
  {
    if Accepts(m, k, vm, node, bound) {
      UsedBounds(bound, node.name, Storage);
      UsedColumns(bound, node.name);
      assert false;
    }
  }

  // ---- A node with one other VM -----------------------------------------------------

  const NODE := "n"

  function SmallNode(a: Allocatable): SmolVMNode {
    SmolVMNode(NODE, map[], NodeStatus("", "", "", None, Endpoint("", "", "", 0), a, []))
  }

  function OtherKey(k: Key): Key { Key(k.namespace, k.name + "'") }

  function Other(k: Key, spec: Spec): SmolVM {
    SmolVM(OtherKey(k).namespace, OtherKey(k).name, "", "", 0, false, true, map[], spec, EMPTY_STATUS.(nodeName := NODE))
  }

  /** What it asks for: so much of one dimension, and these ports. */
  function Asking(d: Dimension, amount: Int32, ports: seq<VMPort>): Spec {
    Spec(true, "", map[], "image", "", if d == CPU then amount else 0, if d == Memory then amount else 0,
         if d == Storage then amount else 0, 0, false, [], ports)
  }

  function Solo(k: Key, spec: Spec): map<Key, Demand> { map[OtherKey(k) := DemandOf(spec)] }

  lemma SoloAccepts(k: Key, vm: SmolVM, spec: Spec, a: Allocatable)
    requires NonNegative(spec) && HostPortsDistinct(spec.ports) && NonNegative(vm.spec) && !Overlap(vm.spec.ports, spec.ports)
    requires Need(spec, CPU) + Need(vm.spec, CPU) < HALF32 && Need(spec, Storage) + Need(vm.spec, Storage) < HALF64
    requires forall d :: Cap(a, d) > 0 ==> Need(spec, d) + Need(vm.spec, d) <= Cap(a, d)
    ensures Accepts(Solo(k, spec), k, vm, SmallNode(a), [Other(k, spec)])
  {
    var node, bound := SmallNode(a), [Other(k, spec)];
    assert OtherKey(k) != k by { assert |OtherKey(k).name| != |k.name|; }
    forall d ensures Used(bound, NODE, d) == Need(spec, d) {
      assert bound[..0] == [];
    }
    FitIsExact(node, vm, bound);
    hide Shortage;
    assert Covered(Solo(k, spec), NODE, bound) by {
      FewerSelf(DemandOf(spec));
      assert Accounts(bound[0], OtherKey(k), NODE, DemandOf(spec));
    }
  }

  lemma TotalTwo(k: Key, spec: Spec, other: Spec, d: Dimension)
    ensures Total(Solo(k, other)[k := DemandOf(spec)], d) == Need(spec, d) + Need(other, d)
  {
    var m := Solo(k, other)[k := DemandOf(spec)];
    assert OtherKey(k) != k by { assert |OtherKey(k).name| != |k.name|; }
    TotalRemove(m, d, k);
    assert m - {k} == Solo(k, other);
    TotalRemove(Solo(k, other), d, OtherKey(k));
    assert Solo(k, other) - {OtherKey(k)} == map[];
  }

  /** More of one resource overruns a node that the version read would have filled. */
  lemma MoreOverruns(k: Key, vm: SmolVM, spec: Spec, d: Dimension)
    requires NonNegative(vm.spec) && NonNegative(spec) && Need(vm.spec, Storage) < HALF64 && Need(spec, d) > Need(vm.spec, d)
    ensures !SafeInstead(k, vm, spec)
  {
    hide Accepts, PortsExclusive, Total;
    var unit: Int32 := if Need(vm.spec, d) == 0 then 1 else 0;
    var full := Need(vm.spec, d) + unit;
    var a := Allocatable(if d == CPU then full else 0, if d == Memory then full else 0, if d == Storage then full else 0);
    var other := Asking(d, unit, []);
    SoloAccepts(k, vm, other, a);
    TotalTwo(k, spec, other, d);
    assert !Within(Solo(k, other)[k := DemandOf(spec)], SmallNode(a).status.allocatable) by { assert Cap(a, d) == full; }
  }

  /** A new host port may be taken. */
  lemma NewPortClashes(k: Key, vm: SmolVM, spec: Spec, i: nat)
    requires NonNegative(vm.spec) && Need(vm.spec, Storage) < HALF64
    requires i < |spec.ports| && !HasHost(vm.spec.ports, spec.ports[i].hostPort)
    ensures !SafeInstead(k, vm, spec)
  {
    hide Accepts, Within, Total;
    var other := Asking(CPU, 0, [spec.ports[i]]);
    SoloAccepts(k, vm, other, Allocatable(0, 0, 0));
    var m := Solo(k, other)[k := DemandOf(spec)];
    assert OtherKey(k) != k by { assert |OtherKey(k).name| != |k.name|; }
    assert spec.ports[i].hostPort == other.ports[0].hostPort;
    assert Overlap(m[k].ports, m[OtherKey(k)].ports);
    assert !PortsExclusive(m);
  }

  lemma Unsafe(k: Key, vm: SmolVM, spec: Spec)
    requires Admitted(vm.spec) && Admitted(spec) && Need(vm.spec, Storage) < HALF64
    requires !Fewer(DemandOf(spec), DemandOf(vm.spec))
    ensures !SafeInstead(k, vm, spec)
  {
    hide SafeInstead, HasHost, HostPortsDistinct;
    if Need(spec, CPU) > Need(vm.spec, CPU) {
      MoreOverruns(k, vm, spec, CPU);
    } else if Need(spec, Memory) > Need(vm.spec, Memory) {
      MoreOverruns(k, vm, spec, Memory);
    } else if Need(spec, Storage) > Need(vm.spec, Storage) {
      MoreOverruns(k, vm, spec, Storage);
    } else {
      var i :| 0 <= i < |spec.ports| && !HasHost(vm.spec.ports, spec.ports[i].hostPort);
      NewPortClashes(k, vm, spec, i);
    }
  }

  // ---- A run that overruns a node ---------------------------------------------------

  const CAPS := map["a" := Allocatable(4, 0, 0)]

  const SEEN := Offering("a", Allocatable(4, 0, 0))

  const GROWN := NEW_VM.spec.(cpus := 8)

  lemma SeenPlaces()
    ensures Decide(NEW_VM, SEEN) == WriteStatus(Binding(NEW_VM, "a"))
  {
    OfferingPlaces("a", Allocatable(4, 0, 0), NEW_VM);
    hide Schedule;
  }

  /** With reads that agree, a current list, the node's real capacity and no edit of a bound VM: a VM
      that asks for nothing is placed on a node with four CPUs, edited to ask for eight before
      the second read, and bound. */
  lemma OvercommitByEdit() returns (states: seq<Cluster>, steps: seq<Step>)
    ensures GoodRun(states, steps) && |steps| == 6
    ensures forall j :: 0 <= j < 6 ==> FreshStep(states[j], steps[j], CAPS) && (BindsWhatWasSeen(states[j], steps[j]) <==> j != 5)
    ensures Cur(states[6], KEY).At? && LiveOn(states[6], KEY, "a") && Cur(states[6], KEY).vm.spec.cpus == 8
    ensures !Allocated(states[6], CAPS)
  {
    hide GoodRun, Decide, Rewritten, State, FreshStep, BindsWhatWasSeen, Allocated, Binding;
    SeenPlaces();
    states, steps := PlacedThenEdited(SEEN, "a", GROWN);
    var e := Edited(NEW_VM, GROWN);
    var st := Written(e, Binding(NEW_VM, "a")).status;
    Unedited(states[3]);
    BindIsFresh(states[5], e, st);
    Overrun(states[6], e, st);
    forall j | 0 <= j < 5 && j != 3 ensures FreshStep(states[j], steps[j], CAPS) && BindsWhatWasSeen(states[j], steps[j]) {
      QuietStep(states[j], steps[j]);
    }
  }

  lemma QuietStep(s: Cluster, step: Step)
    requires !step.UserEdit? && !step.CommitStatus?
    ensures FreshStep(s, step, CAPS) && BindsWhatWasSeen(s, step)
  {
  }

  lemma Unedited(s: Cluster)
    requires s == State(BIRTH, [At(NEW_VM)], Planned(NEW_VM, 0, SEEN, WriteStatus(Binding(NEW_VM, "a"))), 0)
    ensures FreshStep(s, UserEdit(KEY, GROWN, 2), CAPS) && BindsWhatWasSeen(s, UserEdit(KEY, GROWN, 2))
  {
    hide Binding;
  }

  lemma BindIsFresh(s: Cluster, e: SmolVM, st: Status)
    requires e == Edited(NEW_VM, GROWN) && st.nodeName == "a"
    requires s == State(BIRTH, [At(NEW_VM), At(e)], Drafted(NEW_VM, SEEN, e, 1, st), 1)
    ensures FreshStep(s, CommitStatus(KEY), CAPS) && !BindsWhatWasSeen(s, CommitStatus(KEY))
  {
    assert Cur(s, KEY) == At(e) && !LiveOn(s, KEY, "a");
    assert Loads(s, "a") == map[];
    assert BoundVMs(SEEN.vms, NEW_VM) == [];
    assert forall node :: node in SEEN.nodes ==> node.status.allocatable == CAPS["a"];
    assert DemandOf(e.spec).cpu == 8 && DemandOf(NEW_VM.spec).cpu == 0;
    assert Binds(s, CommitStatus(KEY));
  }

  lemma Overrun(s: Cluster, e: SmolVM, st: Status)
    requires e == Edited(NEW_VM, GROWN) && st.nodeName == "a"
    requires s == State(BIRTH, [At(NEW_VM), At(e), At(e.(status := st))], Idle, 1)
    ensures LiveOn(s, KEY, "a") && Cur(s, KEY) == At(e.(status := st)) && !Allocated(s, CAPS)
  {
    assert LiveOn(s, KEY, "a");
    assert Loads(s, "a") == map[KEY := DemandOf(e.spec)];
    TotalRemove(Loads(s, "a"), CPU, KEY);
    assert Loads(s, "a") - {KEY} == map[];
    assert Total(Loads(s, "a"), CPU) == 8;
    assert Cap(CAPS["a"], CPU) == 4;
    assert !Within(Loads(s, "a"), CAPS["a"]);
  }

  // ---- An edit after binding --------------------------------------------------------

  const ON_SEEN := Written(NEW_VM, Binding(NEW_VM, "a"))

  /** Nothing freezes the demand of a bound VM either: one edit takes a cluster from within capacity
      to beyond it. */
  lemma OvercommitAfterBinding() returns (states: seq<Cluster>, steps: seq<Step>)
    ensures GoodRun(states, steps) && |steps| == 6 && steps[5] == UserEdit(KEY, GROWN, 2)
    ensures Allocated(states[5], CAPS) && !Allocated(states[6], CAPS)
  {
    hide RunTo, IsRun, Enabled, Apply, Decide, Written, State, Allocated, Binding, ReadsAgree, StableMachineName;
    SeenPlaces();
    OnAShape();
    Birthday();
    states, steps := WriteRun(BORN, BIRTH, [At(NEW_VM)], 0, SEEN, Binding(NEW_VM, "a"), [EMPTY, BORN], [UserCreate(KEY, NEW_VM)], {});
    var h := [At(NEW_VM)] + [At(ON_SEEN)];
    var s5, s6 := State(BIRTH, h, Idle, 0), State(BIRTH, h + [At(Edited(ON_SEEN, GROWN))], Idle, 0);
    LastOf(states, steps, s5, {});
    GrownEdit(h);
    states, steps := Go(states, steps, s5, UserEdit(KEY, GROWN, 2), s6);
    LastOf(states, steps, s6, {});
    LoadOne(h, 0);
    LoadOne(h + [At(Edited(ON_SEEN, GROWN))], 8);
  }

  lemma GrownEdit(h: seq<Version>)
    requires h == [At(NEW_VM)] + [At(ON_SEEN)]
    ensures var s, edit := State(BIRTH, h, Idle, 0), UserEdit(KEY, GROWN, 2);
            Enabled(s, edit) && Apply(s, edit) == State(BIRTH, h + [At(Edited(ON_SEEN, GROWN))], Idle, 0)
  {
    OnAShape();
    hide Written, State, Enabled, Apply, StableMachineName;
    EditStep(h, Idle, 0, GROWN);
  }

  lemma LoadOne(h: seq<Version>, cpus: int)
    requires h != [] && h[|h| - 1].At?
    requires var vm := h[|h| - 1].vm;
             vm.status.nodeName == "a" && !vm.deleting && vm.spec.cpus == cpus && vm.spec.ports == []
    ensures Allocated(State(BIRTH, h, Idle, 0), CAPS) <==> cpus <= 4
  {
    hide StableMachineName;
    var s, d := State(BIRTH, h, Idle, 0), DemandOf(h[|h| - 1].vm.spec);
    assert LiveOn(s, KEY, "a");
    assert Loads(s, "a") == map[KEY := d];
    TotalRemove(Loads(s, "a"), CPU, KEY);
    assert Loads(s, "a") - {KEY} == map[];
    assert Total(Loads(s, "a"), CPU) == cpus;
    assert Cap(CAPS["a"], CPU) == 4;
  }
}
