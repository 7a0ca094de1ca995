/** Runs from the empty cluster that end where one would not want them to: reads that disagree on
    the binding move it, clear it, or hand it to a successor, and a pin set between the reads is
    missed. */
module Races {
  import opened Types
  import opened StatusWriter
  import opened Scheduler
  import opened Decision
  import opened Protocol
  import opened Safety
  import opened Runs
  import opened Rebind
  import opened Samples

  // ---- Runs, one step at a time -----------------------------------------------------

  /** A run that ends in `s` and whose reads disagree at the steps in `bad` only. */
  ghost predicate RunTo(states: seq<Cluster>, steps: seq<Step>, s: Cluster, bad: set<int>) {
    && IsRun(states, steps) && states[|steps|] == s
    && forall i :: 0 <= i < |steps| ==> (ReadsAgree(states[i], steps[i]) <==> i !in bad)
  }

  lemma Extend(states: seq<Cluster>, steps: seq<Step>, s: Cluster, bad: set<int>, step: Step, s': Cluster)
    requires RunTo(states, steps, s, bad) && Enabled(s, step) && s' == Apply(s, step) && |steps| !in bad
    ensures RunTo(states + [s'], steps + [step], s', if ReadsAgree(s, step) then bad else bad + {|steps|})
  {
    hide Enabled, Apply, ReadsAgree, Init;
  }

  const KEY := Key("ns", "vm")

  const NEW_VM := SmolVM("ns", "vm", "uid", "0123456789", 1, false, true, map[],
                         Spec(true, "", map[], "image", "", 0, 0, 0, 0, false, [], []), EMPTY_STATUS)

  const BIRTH := map[StableMachineName(NEW_VM) := Birth(KEY, "uid", "")]

  /** One log, its worker and its cursor, and the machines there are, none unless said. */
  function State(births: map<string, Birth>, h: seq<Version>, w: Worker, seen: nat, ms: map<Slot, MachineInfo> := map[]): Cluster {
    Cluster(map[KEY := h], map[KEY := seen], map[KEY := w], ms, map[], births, map[])
  }

  function Written(prev: SmolVM, input: StatusInput): SmolVM { prev.(status := Rewritten(prev, input, 0)) }

  lemma NewVmPlaced(n: string)
    requires n != ""
    ensures Decide(NEW_VM, Lone(n, map[])) == WriteStatus(Binding(NEW_VM, n))
    ensures Decide(NEW_VM, Bare(n)) == WriteStatus(Unplaced(NEW_VM, PlacementText(NoNodes)))
  {
    LonePlaces(n, NEW_VM);
    BarePlaces(n, NEW_VM);
    hide Schedule;
  }

  lemma FetchStep(b: map<string, Birth>, h: seq<Version>, c: nat, rv: nat, ms: map<Slot, MachineInfo> := map[])
    requires c <= rv < |h| && h[rv].At?
    ensures var s := State(b, h, Idle, c, ms);
            Enabled(s, Fetch(KEY, rv)) && Apply(s, Fetch(KEY, rv)) == State(b, h, Fetched(h[rv].vm, rv), rv, ms)
            && ReadsAgree(s, Fetch(KEY, rv))
  {
  }

  lemma LookStep(b: map<string, Birth>, h: seq<Version>, vm: SmolVM, rv: nat, view: View, plan: Plan, ms: map<Slot, MachineInfo> := map[])
    requires HonestView(State(b, h, Fetched(vm, rv), rv, ms), vm, view) && Decide(vm, view) == plan && !plan.Nothing?
    ensures var s := State(b, h, Fetched(vm, rv), rv, ms);
            Enabled(s, Look(KEY, view)) && Apply(s, Look(KEY, view)) == State(b, h, Planned(vm, rv, view, plan), rv, ms)
            && ReadsAgree(s, Look(KEY, view))
  {
    hide Decide;
  }

  lemma RereadStep(b: map<string, Birth>, h: seq<Version>, vm: SmolVM, c: nat, view: View, input: StatusInput, rv: nat, ms: map<Slot, MachineInfo> := map[])
    requires c <= rv < |h| && h[rv].At? && Written(h[rv].vm, input) != h[rv].vm
    ensures var s := State(b, h, Planned(vm, c, view, WriteStatus(input)), c, ms);
            Enabled(s, Reread(KEY, rv, 0))
            && Apply(s, Reread(KEY, rv, 0)) == State(b, h, Drafted(vm, view, h[rv].vm, rv, Written(h[rv].vm, input).status), rv, ms)
            && (ReadsAgree(s, Reread(KEY, rv, 0)) <==> h[rv].vm.status.nodeName == vm.status.nodeName)
  {
    hide StatusAfter;
  }

  lemma CommitStep(b: map<string, Birth>, h: seq<Version>, vm: SmolVM, view: View, rv: nat, st: Status, ms: map<Slot, MachineInfo> := map[])
    requires |h| == rv + 1 && h[rv].At?
    ensures var s := State(b, h, Drafted(vm, view, h[rv].vm, rv, st), rv, ms);
            Enabled(s, CommitStatus(KEY)) && Apply(s, CommitStatus(KEY)) == State(b, h + [At(h[rv].vm.(status := st))], Idle, rv, ms)
            && ReadsAgree(s, CommitStatus(KEY))
  {
  }

  /** The four steps of a reconcile that writes a status to the newest version. */
  lemma WriteRun(s0: Cluster, b: map<string, Birth>, h: seq<Version>, rv: nat, view: View, input: StatusInput,
                 states: seq<Cluster>, steps: seq<Step>, bad: set<int>)
    returns (states': seq<Cluster>, steps': seq<Step>)
    requires RunTo(states, steps, s0, bad) && forall i :: i in bad ==> i < |steps|
    requires rv < |h| && h[rv].At? && h[|h| - 1].At?
    requires Enabled(s0, Fetch(KEY, rv)) && Apply(s0, Fetch(KEY, rv)) == State(b, h, Fetched(h[rv].vm, rv), rv)
    requires view.got.GetFailed? && Decide(h[rv].vm, view) == WriteStatus(input)
    requires Written(h[|h| - 1].vm, input) != h[|h| - 1].vm
    ensures |steps'| == |steps| + 4 && states <= states'
    ensures RunTo(states', steps', State(b, h + [At(Written(h[|h| - 1].vm, input))], Idle, |h| - 1),
                  if h[|h| - 1].vm.status.nodeName == h[rv].vm.status.nodeName then bad else bad + {|steps| + 2})
  {
    hide RunTo, Enabled, Apply, ReadsAgree, Decide, State, Rewritten;
    var vm, last := h[rv].vm, |h| - 1;
    NoReread(s0, Fetch(KEY, rv));
    LookStep(b, h, vm, rv, view, WriteStatus(input));
    RereadStep(b, h, vm, rv, view, input, last);
    CommitStep(b, h, vm, view, last, Written(h[last].vm, input).status);
    states', steps' := states, steps;
    var s1 := State(b, h, Fetched(vm, rv), rv);
    var s2 := State(b, h, Planned(vm, rv, view, WriteStatus(input)), rv);
    var s3 := State(b, h, Drafted(vm, view, h[last].vm, last, Written(h[last].vm, input).status), last);
    var s4 := State(b, h + [At(Written(h[last].vm, input))], Idle, last);
    Extend(states', steps', s0, bad, Fetch(KEY, rv), s1);
    states', steps' := states' + [s1], steps' + [Fetch(KEY, rv)];
    Extend(states', steps', s1, bad, Look(KEY, view), s2);
    states', steps' := states' + [s2], steps' + [Look(KEY, view)];
    Extend(states', steps', s2, bad, Reread(KEY, last, 0), s3);
    states', steps' := states' + [s3], steps' + [Reread(KEY, last, 0)];
    var bad' := if h[last].vm.status.nodeName == vm.status.nodeName then bad else bad + {|steps| + 2};
    Extend(states', steps', s3, bad', CommitStatus(KEY), s4);
    states', steps' := states' + [s4], steps' + [CommitStatus(KEY)];
  }

  const EMPTY := Cluster(map[], map[], map[], map[], map[], map[], map[])

  /** The first state in which the VM exists; `State` itself has a worker and a cursor. */
  const BORN := Cluster(map[KEY := [At(NEW_VM)]], map[], map[], map[], map[], BIRTH, map[])

  lemma WrittenShape(prev: SmolVM, input: StatusInput)
    ensures var vm := Written(prev, input);
            && vm.status.nodeName == input.nodeName && vm.status.machineName == input.machineName
            && vm == prev.(status := vm.status)
  {
    hide Settings, SetAll;
  }

  lemma NoReread(s: Cluster, step: Step)
    requires !step.Reread?
    ensures ReadsAgree(s, step)
  {
  }

  lemma Birthday()
    ensures RunTo([EMPTY, BORN], [UserCreate(KEY, NEW_VM)], BORN, {})
    ensures Enabled(BORN, Fetch(KEY, 0)) && Apply(BORN, Fetch(KEY, 0)) == State(BIRTH, [At(NEW_VM)], Fetched(NEW_VM, 0), 0)
  {
    hide StableMachineName;
    assert Hist(EMPTY, KEY) + [At(NEW_VM)] == [At(NEW_VM)];
    assert Enabled(EMPTY, UserCreate(KEY, NEW_VM)) && Apply(EMPTY, UserCreate(KEY, NEW_VM)) == BORN;
  }

  const A := Lone("a", map[])
  const B := Lone("b", map[])

  const ON_A := Written(NEW_VM, Binding(NEW_VM, "a"))

  lemma OnAShape()
    ensures ON_A.status.nodeName == "a" && ON_A.status.machineName == StableMachineName(NEW_VM)
    ensures ON_A == NEW_VM.(status := ON_A.status) && ON_A != NEW_VM
  {
    hide StableMachineName, Rewritten;
    WrittenShape(NEW_VM, Binding(NEW_VM, "a"));
  }

  /** A VM is created and bound to node a; the controller has seen version 0 only. */
  lemma BoundRun() returns (states: seq<Cluster>, steps: seq<Step>)
    ensures |steps| == 5 && RunTo(states, steps, State(BIRTH, [At(NEW_VM), At(ON_A)], Idle, 0), {})
  {
    hide RunTo, Enabled, Apply, State, Decide, Written, StableMachineName, Binding;
    Birthday();
    NewVmPlaced("a");
    OnAShape();
    states, steps := WriteRun(BORN, BIRTH, [At(NEW_VM)], 0, A, Binding(NEW_VM, "a"), [EMPTY, BORN], [UserCreate(KEY, NEW_VM)], {});
    assert [At(NEW_VM)] + [At(ON_A)] == [At(NEW_VM), At(ON_A)];
  }

  // ---- Move and clear ---------------------------------------------------------------

  /** The next reconcile reads version 0 again, then version 1, and commits what it made of them. */
  lemma StaleRun(view: View, input: StatusInput) returns (states: seq<Cluster>, steps: seq<Step>)
    requires view.got.GetFailed? && Decide(NEW_VM, view) == WriteStatus(input) && input.nodeName != "a"
    ensures |steps| == 9 && IsRun(states, steps)
    ensures forall i :: 0 <= i < 9 ==> (ReadsAgree(states[i], steps[i]) <==> i != 7)
    ensures Cur(states[5], KEY) == At(ON_A) && Cur(states[9], KEY) == At(Written(ON_A, input))
  {
    hide RunTo, Enabled, Apply, ReadsAgree, State, Decide, Written, StableMachineName;
    var h := [At(NEW_VM), At(ON_A)];
    states, steps := BoundRun();
    OnAShape();
    WrittenShape(ON_A, input);
    FetchStep(BIRTH, h, 0, 0);
    var s5 := State(BIRTH, h, Idle, 0);
    LastOf(states, steps, s5, {});
    states, steps := WriteRun(s5, BIRTH, h, 0, view, input, states, steps, {});
    var s9 := State(BIRTH, h + [At(Written(ON_A, input))], Idle, 1);
    var none: set<int> := {};
    assert none + {5 + 2} == {7};
    LastOf(states, steps, s9, {7});
    Shown(BIRTH, h, 0);
    Shown(BIRTH, h + [At(Written(ON_A, input))], 1);
  }

  lemma LastOf(states: seq<Cluster>, steps: seq<Step>, s: Cluster, bad: set<int>)
    requires RunTo(states, steps, s, bad)
    ensures IsRun(states, steps) && |states| == |steps| + 1 && states[|steps|] == s
    ensures forall i :: 0 <= i < |steps| ==> (ReadsAgree(states[i], steps[i]) <==> i !in bad)
  {
    hide Enabled, Apply, ReadsAgree, Init;
  }

  lemma Shown(b: map<string, Birth>, h: seq<Version>, c: nat, ms: map<Slot, MachineInfo> := map[])
    ensures Cur(State(b, h, Idle, c, ms), KEY) == Newest(h)
  {
  }

  /** A binding that has been committed to node a moves to node b. */
  lemma RebindHappens() returns (states: seq<Cluster>, steps: seq<Step>)
    ensures IsRun(states, steps) && |steps| == 9
    ensures Cur(states[5], KEY).At? && Cur(states[9], KEY).At? && Cur(states[5], KEY).vm.uid == Cur(states[9], KEY).vm.uid
    ensures Cur(states[5], KEY).vm.status.nodeName == "a" && Cur(states[9], KEY).vm.status.nodeName == "b"
    ensures forall i :: 0 <= i < 9 ==> (ReadsAgree(states[i], steps[i]) <==> i != 7)
  {
    NewVmPlaced("b");
    hide IsRun, ReadsAgree, Decide, Written, StableMachineName;
    states, steps := StaleRun(B, Binding(NEW_VM, "b"));
    OnAShape();
    WrittenShape(ON_A, Binding(NEW_VM, "b"));
  }

  /** A binding that has been committed is cleared. */
  lemma UnbindHappens() returns (states: seq<Cluster>, steps: seq<Step>)
    ensures IsRun(states, steps) && |steps| == 9
    ensures Cur(states[5], KEY).At? && Cur(states[9], KEY).At? && Cur(states[5], KEY).vm.uid == Cur(states[9], KEY).vm.uid
    ensures Cur(states[5], KEY).vm.status.nodeName == "a" && Cur(states[9], KEY).vm.status.nodeName == ""
    ensures forall i :: 0 <= i < 9 ==> (ReadsAgree(states[i], steps[i]) <==> i != 7)
  {
    NewVmPlaced("a");
    hide IsRun, ReadsAgree, Decide, Written, StableMachineName;
    states, steps := StaleRun(Bare("a"), Unplaced(NEW_VM, PlacementText(NoNodes)));
    OnAShape();
    WrittenShape(ON_A, Unplaced(NEW_VM, PlacementText(NoNodes)));
  }

  // ---- Inherit ----------------------------------------------------------------------

  const LEAVING := ON_A.(deleting := true, generation := 2)

  const TWIN := NEW_VM.(uid := "uid2", tag := "9876543210")

  const BIRTHS := BIRTH[StableMachineName(TWIN) := Birth(KEY, "uid2", "")]

  const GONE_LOG := [At(NEW_VM), At(ON_A), At(LEAVING), Gone]

  lemma DeleteStep()
    ensures var s := State(BIRTH, [At(NEW_VM), At(ON_A)], Idle, 0);
            Enabled(s, UserDelete(KEY, 2)) && Apply(s, UserDelete(KEY, 2)) == State(BIRTH, GONE_LOG[..3], Idle, 0)
  {
    OnAShape();
    hide Written, StableMachineName;
    assert [At(NEW_VM), At(ON_A)] + [At(LEAVING)] == GONE_LOG[..3];
  }

  lemma LeavingPlans()
    ensures Decide(LEAVING, A) == Call(Delete(MachineName(LEAVING)))
    ensures Decide(LEAVING, Bare("a")) == WriteStatus(DeletionBlocked(LEAVING, "get SmolVMNode"))
    ensures MachineName(LEAVING) == StableMachineName(NEW_VM)
  {
    OnAShape();
    DistinctTagsDistinctNames(NEW_VM, NEW_VM);
    LoneUsable("a", map[]);
    hide Written, StableMachineName, RuntimeProblem, Lone;
  }

  const DELETE := Call(Delete(MachineName(LEAVING)))

  lemma DeletedStep(made: MachineInfo)
    ensures var s := State(BIRTH, GONE_LOG[..3], Planned(LEAVING, 2, A, DELETE), 2);
            var step := Perform(KEY, false, made, CallNotFound);
            Enabled(s, step) && Apply(s, step) == State(BIRTH, GONE_LOG[..3], Planned(LEAVING, 2, A, DropFinalizer(false)), 2)
  {
    hide Written, StableMachineName;
  }

  lemma DropStep()
    ensures var s := State(BIRTH, GONE_LOG[..3], Planned(LEAVING, 2, A, DropFinalizer(false)), 2);
            Enabled(s, CommitObject(KEY)) && Apply(s, CommitObject(KEY)) == State(BIRTH, GONE_LOG, Idle, 2)
  {
    hide Written, StableMachineName;
    assert GONE_LOG[..3] + [Gone] == GONE_LOG;
  }

  lemma TwinName()
    ensures StableMachineName(TWIN) != StableMachineName(NEW_VM)
    ensures Tail10(StableMachineName(NEW_VM)) == NEW_VM.tag != TWIN.tag
  {
    DistinctTagsDistinctNames(TWIN, NEW_VM);
    assert NEW_VM.tag[0] != TWIN.tag[0];
    var m := StableMachineName(NEW_VM);
    assert m[|m| - 10..] == NEW_VM.tag;
  }

  lemma TwinBorn()
    ensures Newborn(State(BIRTH, GONE_LOG, Idle, 2), KEY, TWIN)
  {
    TwinName();
    assert "uid" != "uid2" by { assert |"uid"| != |"uid2"|; }
    hide Written, StableMachineName, Tail10;
  }

  lemma TwinStep()
    ensures var s := State(BIRTH, GONE_LOG, Idle, 2);
            Enabled(s, UserCreate(KEY, TWIN)) && Apply(s, UserCreate(KEY, TWIN)) == State(BIRTHS, GONE_LOG + [At(TWIN)], Idle, 2)
  {
    TwinBorn();
    hide Written, StableMachineName, Newborn;
  }

  /** A VM bound to node a is deleted and a new one of the same name created. A stale read of the
      old one, with its runtime by then unavailable, commits the old binding and the old machine
      name to the new VM. */
  lemma InheritHappens() returns (states: seq<Cluster>, steps: seq<Step>)
    ensures IsRun(states, steps) && |steps| == 15 && Cur(states[15], KEY).At?
    ensures var vm := Cur(states[15], KEY).vm;
            vm.uid == TWIN.uid && vm.status.nodeName == "a"
            && vm.status.machineName == StableMachineName(NEW_VM) != StableMachineName(vm)
    ensures forall i :: 0 <= i < 15 ==> (ReadsAgree(states[i], steps[i]) <==> i != 13)
  {
    hide RunTo, IsRun, Enabled, Apply, ReadsAgree, State, Decide, Written, StableMachineName, MachineName, DeletionBlocked;
    states, steps := LeftRun();
    var s11 := State(BIRTHS, GONE_LOG + [At(TWIN)], Idle, 2);
    var h, input := GONE_LOG + [At(TWIN)], DeletionBlocked(LEAVING, "get SmolVMNode");
    LeavingPlans();
    BlockedShape();
    WrittenShape(TWIN, input);
    FetchStep(BIRTHS, h, 2, 2);
    states, steps := WriteRun(s11, BIRTHS, h, 2, Bare("a"), input, states, steps, {});
    var none: set<int> := {};
    assert none + {11 + 2} == {13};
    LastOf(states, steps, State(BIRTHS, h + [At(Written(TWIN, input))], Idle, 4), {13});
    Shown(BIRTHS, h + [At(Written(TWIN, input))], 4);
    TwinName();
    SameName(TWIN, Written(TWIN, input));
  }

  lemma BlockedShape()
    ensures var input := DeletionBlocked(LEAVING, "get SmolVMNode");
            LEAVING.status.nodeName == input.nodeName == "a" && input.machineName == MachineName(LEAVING)
  {
    OnAShape();
    hide Written, MachineName;
  }

  lemma SameName(a: SmolVM, b: SmolVM)
    requires b == a.(status := b.status)
    ensures StableMachineName(b) == StableMachineName(a)
  {
  }

  /** The first eleven steps: bound, deleted, gone, and a twin created. */
  lemma LeftRun() returns (states: seq<Cluster>, steps: seq<Step>)
    ensures |steps| == 11 && RunTo(states, steps, State(BIRTHS, GONE_LOG + [At(TWIN)], Idle, 2), {})
  {
    hide RunTo, Enabled, Apply, ReadsAgree, State, Decide, Written, StableMachineName, MachineName;
    var made := MachineInfo("", "", 0, 0, None, [], false, None, None);
    var h := GONE_LOG[..3];
    states, steps := BoundRun();
    DeleteStep();
    states, steps := Go(states, steps, State(BIRTH, [At(NEW_VM), At(ON_A)], Idle, 0), UserDelete(KEY, 2), State(BIRTH, h, Idle, 0));
    FetchStep(BIRTH, h, 0, 2);
    states, steps := Go(states, steps, State(BIRTH, h, Idle, 0), Fetch(KEY, 2), State(BIRTH, h, Fetched(LEAVING, 2), 2));
    LeavingPlans();
    LookStep(BIRTH, h, LEAVING, 2, A, DELETE);
    states, steps := Go(states, steps, State(BIRTH, h, Fetched(LEAVING, 2), 2), Look(KEY, A), State(BIRTH, h, Planned(LEAVING, 2, A, DELETE), 2));
    DeletedStep(made);
    states, steps := Go(states, steps, State(BIRTH, h, Planned(LEAVING, 2, A, DELETE), 2), Perform(KEY, false, made, CallNotFound),
                        State(BIRTH, h, Planned(LEAVING, 2, A, DropFinalizer(false)), 2));
    DropStep();
    states, steps := Go(states, steps, State(BIRTH, h, Planned(LEAVING, 2, A, DropFinalizer(false)), 2), CommitObject(KEY),
                        State(BIRTH, GONE_LOG, Idle, 2));
    TwinStep();
    states, steps := Go(states, steps, State(BIRTH, GONE_LOG, Idle, 2), UserCreate(KEY, TWIN),
                        State(BIRTHS, GONE_LOG + [At(TWIN)], Idle, 2));
  }

  /** One more step, which is not a second read. */
  lemma Go(states: seq<Cluster>, steps: seq<Step>, s: Cluster, step: Step, s': Cluster)
    returns (states': seq<Cluster>, steps': seq<Step>)
    requires RunTo(states, steps, s, {}) && Enabled(s, step) && s' == Apply(s, step) && !step.Reread?
    ensures states' == states + [s'] && steps' == steps + [step] && RunTo(states', steps', s', {})
  {
    hide RunTo, Enabled, Apply, ReadsAgree;
    NoReread(s, step);
    Extend(states, steps, s, {}, step, s');
    states', steps' := states + [s'], steps + [step];
  }

  // ---- Edits between the reads ------------------------------------------------------

  function Edited(vm: SmolVM, spec: Spec): SmolVM { vm.(spec := spec, generation := vm.generation + 1) }

  lemma EditStep(h: seq<Version>, w: Worker, c: nat, spec: Spec, ms: map<Slot, MachineInfo> := map[])
    requires h != [] && h[|h| - 1].At? && Admitted(spec) && spec != h[|h| - 1].vm.spec
    requires h[|h| - 1].vm.spec.nodeName == "" || spec.nodeName == h[|h| - 1].vm.spec.nodeName
    ensures var s, vm := State(BIRTH, h, w, c, ms), h[|h| - 1].vm;
            var edit := UserEdit(KEY, spec, vm.generation + 1);
            Enabled(s, edit) && Apply(s, edit) == State(BIRTH, h + [At(Edited(vm, spec))], w, c, ms)
  {
    hide Admitted;
  }

  /** A reconcile is about to write a status; the user edits the spec; the status lands on the
      edited version. */
  lemma LateEditRun(h: seq<Version>, view: View, input: StatusInput, spec: Spec, ms: map<Slot, MachineInfo>,
                    states: seq<Cluster>, steps: seq<Step>)
    returns (states': seq<Cluster>, steps': seq<Step>)
    requires h != [] && h[|h| - 1].At? && Admitted(spec) && spec != h[|h| - 1].vm.spec
    requires h[|h| - 1].vm.spec.nodeName == "" || spec.nodeName == h[|h| - 1].vm.spec.nodeName
    requires Written(Edited(h[|h| - 1].vm, spec), input) != Edited(h[|h| - 1].vm, spec)
    requires RunTo(states, steps, State(BIRTH, h, Planned(h[|h| - 1].vm, |h| - 1, view, WriteStatus(input)), |h| - 1, ms), {})
    ensures var vm := h[|h| - 1].vm;
            var e := Edited(vm, spec);
            var h' := h + [At(e)];
            && steps' == steps + [UserEdit(KEY, spec, vm.generation + 1), Reread(KEY, |h|, 0), CommitStatus(KEY)]
            && states' == states + [State(BIRTH, h', Planned(vm, |h| - 1, view, WriteStatus(input)), |h| - 1, ms),
                                    State(BIRTH, h', Drafted(vm, view, e, |h|, Written(e, input).status), |h|, ms),
                                    State(BIRTH, h' + [At(Written(e, input))], Idle, |h|, ms)]
            && RunTo(states', steps', states'[|states'| - 1], {})
  {
    hide RunTo, Enabled, Apply, ReadsAgree, State, Rewritten, Admitted;
    var vm, c := h[|h| - 1].vm, |h| - 1;
    var e, plan := Edited(vm, spec), WriteStatus(input);
    var h', st := h + [At(e)], Written(e, input).status;
    var s0, s1 := State(BIRTH, h, Planned(vm, c, view, plan), c, ms), State(BIRTH, h', Planned(vm, c, view, plan), c, ms);
    var s2, s3 := State(BIRTH, h', Drafted(vm, view, e, |h|, st), |h|, ms), State(BIRTH, h' + [At(Written(e, input))], Idle, |h|, ms);
    EditStep(h, Planned(vm, c, view, plan), c, spec, ms);
    states', steps' := Go(states, steps, s0, UserEdit(KEY, spec, vm.generation + 1), s1);
    RereadStep(BIRTH, h', vm, c, view, input, |h|, ms);
    Extend(states', steps', s1, {}, Reread(KEY, |h|, 0), s2);
    states', steps' := states' + [s2], steps' + [Reread(KEY, |h|, 0)];
    CommitStep(BIRTH, h', vm, view, |h|, st, ms);
    states', steps' := Go(states', steps', s2, CommitStatus(KEY), s3);
  }

  /** A new VM is placed, and edited before the second read. */
  lemma PlacedThenEdited(view: View, n: string, spec: Spec) returns (states: seq<Cluster>, steps: seq<Step>)
    requires view.got.GetFailed? && Decide(NEW_VM, view) == WriteStatus(Binding(NEW_VM, n)) && n != ""
    requires Admitted(spec) && spec != NEW_VM.spec
    ensures var e := Edited(NEW_VM, spec);
            var st := Written(e, Binding(NEW_VM, n)).status;
            && GoodRun(states, steps) && |steps| == 6 && |states| == 7 && st.nodeName == n
            && steps == [UserCreate(KEY, NEW_VM), Fetch(KEY, 0), Look(KEY, view), UserEdit(KEY, spec, 2), Reread(KEY, 1, 0), CommitStatus(KEY)]
            && states[3] == State(BIRTH, [At(NEW_VM)], Planned(NEW_VM, 0, view, WriteStatus(Binding(NEW_VM, n))), 0)
            && states[5] == State(BIRTH, [At(NEW_VM), At(e)], Drafted(NEW_VM, view, e, 1, st), 1)
            && states[6] == State(BIRTH, [At(NEW_VM), At(e), At(e.(status := st))], Idle, 1)
  {
    hide RunTo, Enabled, Apply, ReadsAgree, Decide, Rewritten, Binding, StableMachineName, Admitted, IsRun;
    var h, e, input := [At(NEW_VM)], Edited(NEW_VM, spec), Binding(NEW_VM, n);
    var s2, s3 := State(BIRTH, h, Fetched(NEW_VM, 0), 0), State(BIRTH, h, Planned(NEW_VM, 0, view, WriteStatus(input)), 0);
    Birthday();
    states, steps := Go([EMPTY, BORN], [UserCreate(KEY, NEW_VM)], BORN, Fetch(KEY, 0), s2);
    LookStep(BIRTH, h, NEW_VM, 0, view, WriteStatus(input));
    states, steps := Go(states, steps, s2, Look(KEY, view), s3);
    BindingShape(NEW_VM, n);
    WrittenShape(e, input);
    states, steps := LateEditRun(h, view, input, spec, map[], states, steps);
    assert h + [At(e)] == [At(NEW_VM), At(e)];
    assert [At(NEW_VM), At(e)] + [At(Written(e, input))] == [At(NEW_VM), At(e), At(Written(e, input))];
    LastOf(states, steps, states[6], {});
  }

  lemma BindingShape(vm: SmolVM, n: string)
    ensures Binding(vm, n).nodeName == n
  {
  }

  /** With reads that agree on the binding throughout: an unpinned VM is placed on node b, the user
      pins it to node a before the second read, and the binding to b commits on the pinned
      version. From then on its spec counts as invalid. */
  lemma PinMissed() returns (states: seq<Cluster>, steps: seq<Step>)
    ensures GoodRun(states, steps) && |steps| == 6 && Cur(states[6], KEY).At?
    ensures var vm := Cur(states[6], KEY).vm;
            vm.spec.nodeName == "a" && vm.status.nodeName == "b" && SpecProblem(vm) == Some(PinMoved)
  {
    hide GoodRun, Decide, Written, State;
    var spec := NEW_VM.spec.(nodeName := "a");
    NewVmPlaced("b");
    states, steps := PlacedThenEdited(B, "b", spec);
    var e := Edited(NEW_VM, spec);
    Shown(BIRTH, [At(NEW_VM), At(e), At(e.(status := Written(e, Binding(NEW_VM, "b")).status))], 1);
  }

  // ---- A generation nobody compared -------------------------------------------------

  const NAME := StableMachineName(NEW_VM)

  /** A running machine just as the VM asks. */
  const MADE := Echo(CreateRequestFor(ON_A), "running", None)

  const HOME := map[Slot("a", NAME) := MADE]

  const LOG := [At(NEW_VM), At(ON_A)]

  const OBSERVED := Observed(ON_A, MADE, RECONCILED)

  lemma OnAPlans()
    ensures Decide(ON_A, A.(got := NotFound)) == Call(Create(CreateRequestFor(ON_A)))
    ensures Decide(ON_A, A.(got := Found(MADE))) == WriteStatus(OBSERVED)
    ensures Home(ON_A) == Slot("a", NAME) && Target(A) == "a" && MADE.name == NAME && MachineName(ON_A) == NAME
  {
    OnAShape();
    DistinctTagsDistinctNames(NEW_VM, NEW_VM);
    LoneUsable("a", map[]);
    OnAUsable(NotFound);
    OnAUsable(Found(MADE));
    CreateRoundTrip(ON_A, "running", None);
    assert SpecProblem(ON_A).None?;
    hide Written, StableMachineName, RuntimeProblem, Lone, Drifted, Shrinks, Expands, CreateRequestFor, Observed, SpecProblem;
    assert CreateRequestFor(ON_A).name == MachineName(ON_A) by { RequestName(ON_A); }
    assert Identity("a", "") == A.answer.identity.value by { AnswerOf("a"); }
  }

  lemma RequestName(vm: SmolVM)
    ensures CreateRequestFor(vm).name == MachineName(vm)
  {
  }

  lemma AnswerOf(n: string)
    ensures Lone(n, map[]).answer.identity == Some(Identity(n, ""))
  {
  }

  /** What the runtime says about a machine has no part in whether it may be used. */
  lemma OnAUsable(got: GetResult)
    ensures RuntimeProblem("a", A.(got := got)) == RuntimeProblem("a", A)
  {
    hide Eligible, FindNode, Lone;
  }

  const MISSING := A.(got := NotFound)
  const PRESENT := A.(got := Found(MADE))
  const CREATE := Call(Create(CreateRequestFor(ON_A)))
  const CREATED := WriteStatus(Created(ON_A, MADE))

  lemma HonestLooks()
    ensures var s := State(BIRTH, LOG, Fetched(ON_A, 1), 1); HonestView(s, ON_A, MISSING)
    ensures var s := State(BIRTH, LOG, Fetched(ON_A, 1), 1, HOME); HonestView(s, ON_A, PRESENT)
  {
    OnAPlans();
    hide Written, StableMachineName, Lone, MachineName;
    assert Target(MISSING) == "a" && Target(PRESENT) == "a" by { AnswerOf("a"); }
  }

  lemma MadeStep()
    ensures var s, step := State(BIRTH, LOG, Planned(ON_A, 1, MISSING, CREATE), 1), Perform(KEY, true, MADE, CallOk(MADE));
            Enabled(s, step) && Apply(s, step) == State(BIRTH, LOG, Planned(ON_A, 1, MISSING, CREATED), 1, HOME)
  {
    OnAPlans();
    hide Written, StableMachineName, Lone, Created, MachineName, CreateRequestFor, Decide;
    assert CreateRequestFor(ON_A).name == NAME by { RequestName(ON_A); }
    assert Target(MISSING) == "a" by { AnswerOf("a"); }
  }

  lemma GivesUp()
    ensures var s := State(BIRTH, LOG, Planned(ON_A, 1, MISSING, CREATED), 1, HOME);
            Enabled(s, GiveUp(KEY)) && Apply(s, GiveUp(KEY)) == State(BIRTH, LOG, Idle, 1, HOME)
  {
    hide Written, StableMachineName, Lone, Created, MachineName, CreateRequestFor, Echo;
  }

  /** The VM bound, its machine created and running, and a reconcile about to report so. */
  lemma ReportingRun() returns (states: seq<Cluster>, steps: seq<Step>)
    ensures |steps| == 11
    ensures RunTo(states, steps, State(BIRTH, LOG, Planned(ON_A, 1, PRESENT, WriteStatus(OBSERVED)), 1, HOME), {})
  {
    hide RunTo, Enabled, Apply, ReadsAgree, State, Decide, Written, StableMachineName, HonestView, Created, Observed;
    states, steps := BoundRun();
    FetchStep(BIRTH, LOG, 0, 1);
    states, steps := Go(states, steps, State(BIRTH, LOG, Idle, 0), Fetch(KEY, 1), State(BIRTH, LOG, Fetched(ON_A, 1), 1));
    HonestLooks();
    MadeStep();
    OnAPlans();
    LookStep(BIRTH, LOG, ON_A, 1, MISSING, CREATE);
    var s7, s8 := State(BIRTH, LOG, Planned(ON_A, 1, MISSING, CREATE), 1), State(BIRTH, LOG, Planned(ON_A, 1, MISSING, CREATED), 1, HOME);
    states, steps := Go(states, steps, State(BIRTH, LOG, Fetched(ON_A, 1), 1), Look(KEY, MISSING), s7);
    states, steps := Go(states, steps, s7, Perform(KEY, true, MADE, CallOk(MADE)), s8);
    GivesUp();
    states, steps := Go(states, steps, s8, GiveUp(KEY), State(BIRTH, LOG, Idle, 1, HOME));
    FetchStep(BIRTH, LOG, 1, 1, HOME);
    states, steps := Go(states, steps, State(BIRTH, LOG, Idle, 1, HOME), Fetch(KEY, 1), State(BIRTH, LOG, Fetched(ON_A, 1), 1, HOME));
    LookStep(BIRTH, LOG, ON_A, 1, PRESENT, WriteStatus(OBSERVED), HOME);
    states, steps := Go(states, steps, State(BIRTH, LOG, Fetched(ON_A, 1), 1, HOME), Look(KEY, PRESENT),
                        State(BIRTH, LOG, Planned(ON_A, 1, PRESENT, WriteStatus(OBSERVED)), 1, HOME));
  }

  const HALTED := NEW_VM.spec.(running := false)

  lemma ReportShape(e: SmolVM)
    requires e == Edited(ON_A, HALTED)
    ensures var vm := Written(e, OBSERVED);
            && vm != e && vm.status.observedGeneration == 2 == vm.generation && vm.spec == HALTED
            && Says(vm.status.conditions, "Reconciled", CondTrue) && vm.status.nodeName == "a" && Home(vm) == Slot("a", NAME)
  {
    OnAShape();
    WrittenShape(e, OBSERVED);
    WrittenShape(NEW_VM, Binding(NEW_VM, "a"));
    VerdictsAfter(e.status, OBSERVED, e.generation, 0);
    OnAPlans();
    DistinctTagsDistinctNames(NEW_VM, NEW_VM);
    hide StableMachineName, Settings, SetAll, Home;
    assert ON_A.status.observedGeneration == 1;
    assert Home(Written(e, OBSERVED)) == Slot("a", NAME) by { HomeOf(Written(e, OBSERVED)); }
  }

  lemma HomeOf(vm: SmolVM)
    requires vm.status.machineName != ""
    ensures Home(vm) == Slot(vm.status.nodeName, vm.status.machineName)
  {
  }

  /** With reads that agree on the binding throughout: the machine runs as asked and the reconcile
      is about to say so, when the user asks for it to stop. Reconciled=True is committed for the
      new generation, although its machine runs and the spec says it should not. */
  lemma ClaimsUnseen() returns (states: seq<Cluster>, steps: seq<Step>)
    ensures GoodRun(states, steps) && |steps| == 14 && Cur(states[14], KEY).At?
    ensures var vm := Cur(states[14], KEY).vm;
            && Says(vm.status.conditions, "Reconciled", CondTrue) && vm.status.observedGeneration == vm.generation
            && Home(vm) in states[14].machines && !Matches(vm.spec, states[14].machines[Home(vm)])
  {
    hide RunTo, IsRun, ReadsAgree, Decide, Rewritten, StableMachineName, Observed, Home;
    var e := Edited(ON_A, HALTED);
    OnAShape();
    ReportShape(e);
    states, steps := ReportingRun();
    states, steps := LateEditRun(LOG, PRESENT, OBSERVED, HALTED, HOME, states, steps);
    var h := LOG + [At(e)] + [At(Written(e, OBSERVED))];
    LastOf(states, steps, State(BIRTH, h, Idle, 2, HOME), {});
    Shown(BIRTH, h, 2, HOME);
    assert MADE.state == "running";
  }
}
