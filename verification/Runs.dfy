/** What holds in every state of every run. */
module Runs {
  import opened Types
  import opened StatusWriter
  import opened Decision
  import opened Sweeper
  import opened Protocol
  import opened Safety

  /** Runs in which the two reads of every reconcile agree on the binding. */
  ghost predicate GoodRun(states: seq<Cluster>, steps: seq<Step>) {
    IsRun(states, steps) && forall i :: 0 <= i < |steps| ==> ReadsAgree(states[i], steps[i])
  }

  predicate ByController(step: Step) {
    step.Fetch? || step.Look? || step.Perform? || step.Reread? || step.CommitStatus? || step.CommitObject? || step.GiveUp?
  }

  predicate ByUser(step: Step) { step.UserCreate? || step.UserEdit? || step.UserAnnotate? || step.UserDelete? }

  lemma ControllerStepInv(s: Cluster, step: Step)
    requires Inv(s) && Enabled(s, step) && ReadsAgree(s, step) && ByController(step)
    ensures Inv(Apply(s, step))
  {
    hide Inv, HonestView, HonestOutcome, AfterPerform, AfterReread, AfterCommitStatus, AfterCommitObject, AfterLook, ReadsAgree;
    var s' := Apply(s, step);
    match step
    case Fetch(k, rv) => FetchInv(s, k, rv);
    case Look(k, view) => LookInv(s, k, view);
    case Perform(k, effect, made, outcome) => PerformInv(s, k, effect, made, outcome);
    case Reread(k, rv, now) => RereadInv(s, s', k, rv, now);
    case CommitStatus(k) => CommitStatusInv(s, s', k);
    case CommitObject(k) => CommitObjectInv(s, s', k);
    case GiveUp(k) => GiveUpInv(s, k);
  }

  lemma UserStepInv(s: Cluster, step: Step)
    requires Inv(s) && Enabled(s, step) && ByUser(step)
    ensures Inv(Apply(s, step))
  {
    hide Inv, Newborn, Admitted;
    var s' := Apply(s, step);
    match step
    case UserCreate(k, vm) => UserCreateInv(s, s', k, vm);
    case UserEdit(k, spec, generation) =>
      EditVersion(Cur(s, k).vm, spec, generation);
      UserVersionInv(s, s', k, Cur(s, k).vm.(spec := spec, generation := generation));
    case UserAnnotate(k, annotations) =>
      CurrentAdmitted(s, k);
      UserVersionInv(s, s', k, Cur(s, k).vm.(annotations := annotations));
    case UserDelete(k, generation) => UserDeleteInv(s, s', k, generation);
  }

  lemma SweepStepInv(s: Cluster, step: Step)
    requires Inv(s) && Enabled(s, step) && !ByController(step) && !ByUser(step)
    ensures Inv(Apply(s, step))
  {
    hide Inv, ListsAll;
    var s' := Apply(s, step);
    match step
    case SweepList(n, names) => SweepListInv(s, s', n, names);
    case SweepOwners(n, vms) => SweepOwnersInv(s, s', n, vms);
    case SweepDelete(n, effect) => SweepDeleteInv(s, s', n, effect);
    case SweepEnd(n) => SweepEndInv(s, s', n);
    case ForeignCreate(slot, made) => WorldInv(s, s');
    case MachineStops(slot) => WorldInv(s, s');
    case MachineVanishes(slot) => WorldInv(s, s');
  }

  lemma StepInv(s: Cluster, step: Step)
    requires Inv(s) && Enabled(s, step) && ReadsAgree(s, step)
    ensures Inv(Apply(s, step))
  {
    hide Inv, Enabled, Apply, ReadsAgree;
    if ByController(step) {
      ControllerStepInv(s, step);
    } else if ByUser(step) {
      UserStepInv(s, step);
    } else {
      SweepStepInv(s, step);
    }
  }

  lemma EditVersion(a: SmolVM, spec: Spec, generation: int)
    requires Admitted(spec) && (a.spec.nodeName != "" ==> spec.nodeName == a.spec.nodeName)
    requires generation == a.generation + (if spec == a.spec then 0 else 1)
    ensures UserVersion(a, a.(spec := spec, generation := generation))
  {
  }

  /** The invariant holds in every reachable state. */
  lemma {:induction false} RunInv(states: seq<Cluster>, steps: seq<Step>, i: nat)
    requires GoodRun(states, steps) && i < |states|
    ensures Inv(states[i])
  {
    hide Inv, Enabled, Apply, ReadsAgree, Init;
    if i == 0 {
      InitInv(states[0]);
    } else {
      RunInv(states, steps, i - 1);
      StepInv(states[i - 1], steps[i - 1]);
    }
  }

  // ---- No lost machine --------------------------------------------------------------

  /** An existing VM holds the finalizer and is bound to the slot under the slot's machine name. */
  ghost predicate Kept(s: Cluster, slot: Slot) {
    exists k :: Cur(s, k).At? && KeptBy(Cur(s, k).vm, slot)
  }

  predicate KeptBy(vm: SmolVM, slot: Slot) {
    vm.finalizer && vm.status.nodeName == slot.node && vm.status.machineName == slot.machine
  }

  /** The step removes a VM by force: it commits, the VM asks for it, and its runtime was found
      unusable. */
  ghost predicate ForcedDrop(s: Cluster, step: Step, slot: Slot) {
    && step.CommitObject? && WorkerOf(s, step.k).Planned? && WorkerOf(s, step.k).plan == DropFinalizer(true)
    && Enabled(s, step) && WorkerOf(s, step.k).rv + 1 == |Hist(s, step.k)| && Cur(Apply(s, step), step.k).Gone?
    && var w := WorkerOf(s, step.k);
       && w.vm.deleting && w.vm.ForceDelete() && RuntimeProblem(w.vm.status.nodeName, w.view).Some?
       && w.vm.status.nodeName == slot.node && MachineName(w.vm) == slot.machine
  }

  lemma ShelteredKept(s: Cluster, slot: Slot)
    requires Inv(s) && Sheltered(s, slot)
    ensures Kept(s, slot)
  {
    hide KeyOk, HistOk, MachinesOk, StableMachineName;
    var k := s.births[slot.machine].key;
    InvKey(s, k);
    KeyHist(s, k);
    VersionOk(s, k, |Hist(s, k)| - 1);
  }

  lemma AbandonStep(s: Cluster, step: Step, slot: Slot)
    requires Inv(s) && Enabled(s, step)
    requires !Abandoned(s, slot) && Abandoned(Apply(s, step), slot)
    ensures ForcedDrop(s, step, slot)
  {
    hide Inv, Newborn, HonestView, HonestOutcome, ListsAll, AfterFetch, AfterLook, AfterPerform, AfterReread,
      AfterCommitStatus, AfterCommitObject, StableMachineName, Admitted, Doomed, OwnedNames, RuntimeProblem, MachineName, Hist, KeyOk;
    if step.CommitObject? {
      CommitObjectGrows(s, step.k, step.k);
      InvKey(s, step.k);
      PlannedFacts(s, step.k);
    } else if step.CommitStatus? {
      CommitStatusGrows(s, step.k, step.k);
    } else if step.Fetch? || step.Look? || step.Perform? || step.Reread? || step.GiveUp? {
      ReconcileGrows(s, step, step.k);
    }
  }

  /** In every reachable state each machine under a controller name has an existing, finalized
      VM bound to its node, unless that VM was removed earlier by a force deletion that committed
      while its runtime was unusable. This holds although calls may fail after taking effect, reads may be stale,
      and reconciles may stop anywhere. */
  lemma {:induction false} NoLostMachine(states: seq<Cluster>, steps: seq<Step>, i: nat, slot: Slot)
    requires GoodRun(states, steps) && i < |states|
    requires slot in states[i].machines && ControllerName(slot.machine)
    ensures Kept(states[i], slot) || exists j :: 0 <= j < i && ForcedDrop(states[j], steps[j], slot)
  {
    hide Enabled, Apply, ReadsAgree, Init, KeyOk, ControllerName, Kept, ForcedDrop;
    RunInv(states, steps, i);
    if Sheltered(states[i], slot) {
      ShelteredKept(states[i], slot);
    } else {
      AbandonedEarlier(states, steps, i, slot);
    }
  }

  lemma {:induction false} AbandonedEarlier(states: seq<Cluster>, steps: seq<Step>, i: nat, slot: Slot)
    requires GoodRun(states, steps) && i < |states| && Abandoned(states[i], slot)
    ensures exists j :: 0 <= j < i && ForcedDrop(states[j], steps[j], slot)
  {
    hide Enabled, Apply, ReadsAgree, Inv, ForcedDrop;
    if i > 0 {
      if Abandoned(states[i - 1], slot) {
        AbandonedEarlier(states, steps, i - 1, slot);
      } else {
        RunInv(states, steps, i - 1);
        AbandonStep(states[i - 1], steps[i - 1], slot);
      }
    }
  }

  // ---- The sweeper ------------------------------------------------------------------

  /** Whatever happens between listing machines, listing VMs and each deletion, the machine a
      sweeper is about to delete belongs to no VM that is bound to the node and staying. */
  lemma SweeperSafe(states: seq<Cluster>, steps: seq<Step>, i: nat, k: Key)
    requires GoodRun(states, steps) && i < |steps| && steps[i].SweepDelete?
    ensures var s, n := states[i], steps[i].node;
            && SweepOf(s, n).Condemned? && SweepOf(s, n).names != []
            && (Cur(s, k).At? && Cur(s, k).vm.status.nodeName == n && Cur(s, k).vm.status.machineName == SweepOf(s, n).names[0] ==>
               Cur(s, k).vm.deleting)
  {
    hide Inv, Apply, ReadsAgree;
    RunInv(states, steps, i);
    var s, n := states[i], steps[i].node;
    if Cur(s, k).At? && Cur(s, k).vm.status.machineName == SweepOf(s, n).names[0] {
      SweepDeleteSafe(s, n, k);
    }
  }

  lemma SweepDeleteSafe(s: Cluster, n: string, k: Key)
    requires Inv(s) && SweepOf(s, n).Condemned? && SweepOf(s, n).names != []
    requires Cur(s, k).At? && Cur(s, k).vm.status.machineName == SweepOf(s, n).names[0]
    ensures Cur(s, k).vm.deleting
  {
    hide KeyOk, HistOk, MachinesOk, StableMachineName, VmOk, CondemnedOk;
    InvKey(s, k);
    KeyHist(s, k);
    VersionOk(s, k, |Hist(s, k)| - 1);
    CondemnedName(s, k, SweepOf(s, n).names[0]);
  }

  lemma CondemnedName(s: Cluster, k: Key, m: string)
    requires Cur(s, k).At? && VmOk(Cur(s, k).vm, k, s.births) && Cur(s, k).vm.status.machineName == m && CondemnedOk(s, m)
    requires BirthsOk(s)
    ensures Cur(s, k).vm.deleting
  {
    assert m != "";
    hide Coherent, StableMachineName;
  }

  // ---- Bindings ---------------------------------------------------------------------

  lemma ReconcileGrows(s: Cluster, step: Step, k: Key)
    requires Enabled(s, step) && (step.Fetch? || step.Look? || step.Perform? || step.Reread? || step.GiveUp?)
    ensures Apply(s, step).store == s.store && Apply(s, step).births == s.births && Apply(s, step).abandoned == s.abandoned
    ensures !step.Perform? ==> Apply(s, step).machines == s.machines
  {
    hide HonestView, HonestOutcome, Decide, AfterCall, CallEffect, RereadWorker, Hist;
  }

  lemma CommittedGrows(s: Cluster, k': Key, v: Version, abandoned: map<string, string>, k: Key)
    ensures var s' := Committed(s, k', v, abandoned);
            Hist(s, k) <= Hist(s', k) && Cur(s', k') == v
            && s'.births == s.births && s'.machines == s.machines && s'.abandoned == abandoned
  {
  }

  lemma CommitStatusGrows(s: Cluster, k': Key, k: Key)
    requires WorkerOf(s, k').Drafted?
    ensures var s' := AfterCommitStatus(s, k');
            Hist(s, k) <= Hist(s', k) && s'.births == s.births && s'.machines == s.machines && s'.abandoned == s.abandoned
  {
    hide Committed;
    var w := WorkerOf(s, k');
    CommittedGrows(s, k', At(w.latest.(status := w.status)), s.abandoned, k);
  }

  lemma CommitObjectGrows(s: Cluster, k': Key, k: Key)
    requires WorkerOf(s, k').Planned?
    ensures var s' := AfterCommitObject(s, k');
            Hist(s, k) <= Hist(s', k) && s'.births == s.births && s'.machines == s.machines
            && (s'.abandoned != s.abandoned ==>
                  && s'.abandoned == AfterDrop(s, WorkerOf(s, k').vm, WorkerOf(s, k').plan)
                  && WorkerOf(s, k').rv + 1 == |Hist(s, k')| && Cur(s', k').Gone?)
  {
    hide Committed, AfterDrop;
    var w := WorkerOf(s, k');
    CommittedGrows(s, k', At(w.vm.(finalizer := true)), s.abandoned, k);
    CommittedGrows(s, k', Gone, AfterDrop(s, w.vm, w.plan), k);
  }

  lemma StepGrows(s: Cluster, step: Step, k: Key)
    requires Enabled(s, step)
    ensures Hist(s, k) <= Hist(Apply(s, step), k)
    ensures forall m :: m in s.births ==> m in Apply(s, step).births && Apply(s, step).births[m] == s.births[m]
  {
    hide Newborn, HonestView, HonestOutcome, ListsAll, AfterFetch, AfterLook, AfterPerform, AfterReread,
      AfterCommitStatus, AfterCommitObject, StableMachineName, Admitted, Doomed, OwnedNames;
    if step.UserCreate? {
      NewName(s, step.k, step.vm);
    } else if step.CommitStatus? {
      CommitStatusGrows(s, step.k, k);
    } else if step.CommitObject? {
      CommitObjectGrows(s, step.k, k);
    } else if step.Fetch? || step.Look? || step.Perform? || step.Reread? || step.GiveUp? {
      ReconcileGrows(s, step, k);
    }
  }

  lemma {:induction false} RunGrows(states: seq<Cluster>, steps: seq<Step>, i: nat, j: nat, k: Key)
    requires IsRun(states, steps) && i <= j < |states|
    ensures Hist(states[i], k) <= Hist(states[j], k)
    ensures forall m :: m in states[i].births ==> m in states[j].births && states[j].births[m] == states[i].births[m]
    decreases j
  {
    hide Enabled, Apply, Hist;
    if i < j {
      RunGrows(states, steps, i, j - 1, k);
      StepGrows(states[j - 1], steps[j - 1], k);
    }
  }

  /** Once committed, a binding and its machine name are never changed by any later write, for
      as long as that VM exists. */
  lemma BindingStable(states: seq<Cluster>, steps: seq<Step>, i: nat, j: nat, k: Key)
    requires GoodRun(states, steps) && i <= j < |states|
    requires Cur(states[i], k).At? && Cur(states[j], k).At? && Cur(states[i], k).vm.uid == Cur(states[j], k).vm.uid
    requires Cur(states[i], k).vm.Bound()
    ensures var a, b := Cur(states[i], k).vm, Cur(states[j], k).vm;
            && b.status.nodeName == a.status.nodeName
            && b.status.machineName == a.status.machineName == StableMachineName(a) == StableMachineName(b)
  {
    hide Enabled, Apply, ReadsAgree, Inv, Init, StableMachineName;
    RunInv(states, steps, j);
    RunGrows(states, steps, i, j, k);
    SameUid(states[j], k, |Hist(states[i], k)| - 1);
  }

  /** The machines of one VM are on one node. */
  lemma OneNode(states: seq<Cluster>, steps: seq<Step>, i: nat, a: Slot, b: Slot)
    requires GoodRun(states, steps) && i < |states|
    requires a in states[i].machines && b in states[i].machines && a.machine == b.machine && ControllerName(a.machine)
    ensures a == b
  {
    hide Enabled, Apply, ReadsAgree, KeyOk, ControllerName, StableMachineName, CurNamed;
    RunInv(states, steps, i);
    assert Sheltered(states[i], a) || Abandoned(states[i], a);
    assert Sheltered(states[i], b) || Abandoned(states[i], b);
  }

  /** A VM created with a pin keeps it, and if it is ever bound, is bound to the pinned node. */
  lemma PinHonoured(states: seq<Cluster>, steps: seq<Step>, i: nat, j: nat, k: Key)
    requires GoodRun(states, steps) && i < j < |states| && steps[i].UserCreate? && steps[i].vm.spec.nodeName != ""
    requires Cur(states[j], k).At? && Cur(states[j], k).vm.uid == steps[i].vm.uid
    ensures var vm, pin := Cur(states[j], k).vm, steps[i].vm.spec.nodeName;
            vm.spec.nodeName == pin && (vm.Bound() ==> vm.status.nodeName == pin)
  {
    hide ReadsAgree, KeyOk, Inv, Init, StableMachineName, Enabled, Apply, VmOk;
    BirthRecorded(states[i], steps[i]);
    RunGrows(states, steps, i + 1, j, k);
    RunInv(states, steps, j);
    PinKept(states[j], k, steps[i].vm);
  }

  lemma BirthRecorded(s: Cluster, step: Step)
    requires Enabled(s, step) && step.UserCreate?
    ensures var m := StableMachineName(step.vm);
            m in Apply(s, step).births && Apply(s, step).births[m] == Birth(step.k, step.vm.uid, step.vm.spec.nodeName)
  {
    hide Newborn, StableMachineName;
  }

  lemma PinKept(s: Cluster, k: Key, born: SmolVM)
    requires Inv(s) && Cur(s, k).At? && Cur(s, k).vm.uid == born.uid && born.spec.nodeName != ""
    requires var m := StableMachineName(born); m in s.births && s.births[m].uid == born.uid && s.births[m].pin == born.spec.nodeName
    ensures var vm := Cur(s, k).vm;
            vm.spec.nodeName == born.spec.nodeName && (vm.Bound() ==> vm.status.nodeName == born.spec.nodeName)
  {
    hide KeyOk, HistOk, Coherent, StableMachineName, MachinesOk, SweepsOk;
    InvKey(s, k);
    KeyHist(s, k);
    VersionOk(s, k, |Hist(s, k)| - 1);
  }

  // ---- Calls ------------------------------------------------------------------------

  /** Every mutating call goes to a runtime that identified itself as the VM's node, whose
      conditions were all True and heartbeat fresh when the reconcile looked, under the VM's
      machine name; and for as long as the VM exists that node is its committed binding. Only
      deletions are sent for VMs that may be gone. */
  lemma CallsTargeted(states: seq<Cluster>, steps: seq<Step>, i: nat, k: Key)
    requires GoodRun(states, steps) && i < |steps| && steps[i].Perform? && steps[i].k == k
    ensures WorkerOf(states[i], k).Planned? && WorkerOf(states[i], k).plan.Call?
    ensures var w := WorkerOf(states[i], k);
            && RuntimeChecked(w.vm, w.view)
            && Target(w.view) == w.vm.status.nodeName && CallName(w.plan.call) == StableMachineName(w.vm)
            && (Cur(states[i], k).At? && Cur(states[i], k).vm.uid == w.vm.uid ==>
                  Cur(states[i], k).vm.status.nodeName == Target(w.view)
                  && Cur(states[i], k).vm.status.machineName == CallName(w.plan.call))
            && (!w.plan.call.Delete? ==> Kept(states[i], Slot(Target(w.view), CallName(w.plan.call))))
            && !AfterCall(w.vm, w.plan.call, steps[i].outcome).Call?
  {
    hide Enabled, Apply, ReadsAgree, Inv, StableMachineName;
    RunInv(states, steps, i);
    PerformPlanned(states[i], steps[i]);
    CallTargeted(states[i], k, steps[i].outcome);
  }

  lemma PerformPlanned(s: Cluster, step: Step)
    requires Enabled(s, step) && step.Perform?
    ensures WorkerOf(s, step.k).Planned? && WorkerOf(s, step.k).plan.Call?
  {
  }

  lemma CallTargeted(s: Cluster, k: Key, outcome: CallOutcome)
    requires Inv(s) && WorkerOf(s, k).Planned? && WorkerOf(s, k).plan.Call?
    ensures var w := WorkerOf(s, k);
            && RuntimeChecked(w.vm, w.view)
            && Target(w.view) == w.vm.status.nodeName && CallName(w.plan.call) == StableMachineName(w.vm)
            && (Cur(s, k).At? && Cur(s, k).vm.uid == w.vm.uid ==>
                  Cur(s, k).vm.status.nodeName == Target(w.view) && Cur(s, k).vm.status.machineName == CallName(w.plan.call))
            && (!w.plan.call.Delete? ==> Kept(s, Slot(Target(w.view), CallName(w.plan.call))))
            && !AfterCall(w.vm, w.plan.call, outcome).Call?
  {
    hide KeyOk, Inv, StableMachineName, RuntimeChecked, HistOk, VmOk, PlanMachines, Sheltered, Kept, AfterCall;
    InvKey(s, k);
    var w := WorkerOf(s, k);
    PlannedFacts(s, k);
    NamedMachine(s, k);
    PerformHome(s, k);
    AfterCallFacts(w.vm, w.view, w.plan.call, outcome);
    PerformShelter(s, k);
    if !w.plan.call.Delete? {
      ShelteredKept(s, Home(w.vm));
    }
    CallBound(w.vm, w.view, w.plan.call);
    if Cur(s, k).At? && Cur(s, k).vm.uid == w.vm.uid {
      StillBound(s, k);
    }
  }

  lemma CallBound(vm: SmolVM, view: View, call: RuntimeCall)
    requires RuntimeChecked(vm, view)
    ensures vm.Bound() && Target(view) == vm.status.nodeName
  {
  }

  lemma StillBound(s: Cluster, k: Key)
    requires Inv(s) && WorkerOf(s, k).Planned? && WorkerOf(s, k).vm.Bound()
    requires Cur(s, k).At? && Cur(s, k).vm.uid == WorkerOf(s, k).vm.uid
    ensures Cur(s, k).vm.status.nodeName == WorkerOf(s, k).vm.status.nodeName
    ensures Cur(s, k).vm.status.machineName == MachineName(WorkerOf(s, k).vm)
  {
    hide Inv, KeyOk, VmOk, HistOk, PlanFacts, PlanMachines, Later, StableMachineName;
    InvKey(s, k);
    PlannedFacts(s, k);
    SameUid(s, k, SeenOf(s, k));
  }

  /** An earlier version and the current one with the same UID are the same VM, later. */
  lemma SameUid(s: Cluster, k: Key, p: nat)
    requires Inv(s) && p < |Hist(s, k)| && Hist(s, k)[p].At? && Cur(s, k).At? && Hist(s, k)[p].vm.uid == Cur(s, k).vm.uid
    requires Hist(s, k)[p].vm.Bound()
    ensures var a, b := Hist(s, k)[p].vm, Cur(s, k).vm;
            && b.status.nodeName == a.status.nodeName
            && b.status.machineName == a.status.machineName == StableMachineName(a) == StableMachineName(b)
            && MachineName(a) == a.status.machineName && PinStays(a, b)
  {
    hide KeyOk, StableMachineName, MachinesOk, AbandonedOk, SweepsOk, Coherent, Legal, LiveStays, BoundSeen, HistOk;
    var h := Hist(s, k);
    InvKey(s, k);
    KeyHist(s, k);
    VersionOk(s, k, p);
    VersionOk(s, k, |h| - 1);
    assert Same(h[p].vm, h[|h| - 1].vm);
    HistOrdered(h, SeenOf(s, k), k, s.births, p);
    DistinctTagsDistinctNames(h[p].vm, h[p].vm);
  }

  lemma HistOrdered(h: seq<Version>, c: nat, k: Key, births: map<string, Birth>, p: nat)
    requires HistOk(h, c, k, births) && p < |h| && h[p].At? && h[|h| - 1].At? && Same(h[p].vm, h[|h| - 1].vm)
    ensures Later(h[p].vm, h[|h| - 1].vm)
  {
    hide VmOk, Same, Later;
  }

  // ---- Disks and status -------------------------------------------------------------

  lemma ResizeCall(vm: SmolVM, view: View, ms: map<Slot, MachineInfo>)
    requires PlanMachines(vm, view, Call(Resize(MachineName(vm), ResizeRequestFor(vm.spec))), ms)
    requires view.got.Found? && ResizeAllowed(vm.spec, view.got.info) && Home(vm) in ms
    ensures var m, r := ms[Home(vm)], Resized(ms[Home(vm)], ResizeRequestFor(vm.spec));
            NoSmallerDisks(m, r) && Raises(vm.spec, m, r)
  {
    ResizeGrows(vm.spec, view.got.info);
    hide MachineName;
  }

  /** One disk is strictly larger, and the spec now asks for neither a shrink nor an expansion. */
  predicate Raises(spec: Spec, m: MachineInfo, r: MachineInfo) {
    && (|| (m.storageGB.Some? && r.storageGB.Some? && m.storageGB.value < r.storageGB.value)
        || (m.overlayGB.Some? && r.overlayGB.Some? && m.overlayGB.value < r.overlayGB.value))
    && !Shrinks(spec, r) && !Expands(spec, r)
  }

  /** The step is a resize that takes effect on the slot. */
  ghost predicate Resizes(s: Cluster, step: Step, slot: Slot) {
    && step.Perform? && step.effect && WorkerOf(s, step.k).Planned?
    && WorkerOf(s, step.k).plan.Call? && WorkerOf(s, step.k).plan.call.Resize?
    && slot == Home(WorkerOf(s, step.k).vm)
  }

  predicate NoSmallerDisks(m: MachineInfo, r: MachineInfo) {
    NoSmaller(m.storageGB, r.storageGB) && NoSmaller(m.overlayGB, r.overlayGB)
  }

  /** Disks only grow: no step shrinks a disk of a controller's machine that is there before and
      after it; a resize that takes effect raises one and leaves nothing more to resize for the
      spec it served, on a machine the reconcile had seen not running. */
  lemma DisksOnlyGrow(states: seq<Cluster>, steps: seq<Step>, i: nat, slot: Slot)
    requires GoodRun(states, steps) && i < |steps| && ControllerName(slot.machine)
    requires slot in states[i].machines && slot in states[i + 1].machines
    ensures NoSmallerDisks(states[i].machines[slot], states[i + 1].machines[slot])
    ensures Resizes(states[i], steps[i], slot) ==>
              && Raises(WorkerOf(states[i], steps[i].k).vm.spec, states[i].machines[slot], states[i + 1].machines[slot])
              && WorkerOf(states[i], steps[i].k).view.got.Found? && !Running(WorkerOf(states[i], steps[i].k).view.got.info)
  {
    hide Inv, Enabled, Apply, ReadsAgree, NoSmallerDisks, Raises, Running;
    RunInv(states, steps, i);
    if steps[i].Perform? {
      var st := steps[i];
      PerformStep(states[i], st, states[i + 1]);
      PerformDisks(states[i], states[i + 1], st.k, st.effect, st.made, st.outcome, slot);
    } else {
      OtherDisks(states[i], steps[i], slot);
    }
  }

  /** Over the whole life of one machine its disks never shrink. */
  lemma {:induction false} DisksOverLife(states: seq<Cluster>, steps: seq<Step>, i: nat, j: nat, slot: Slot)
    requires GoodRun(states, steps) && i <= j < |states| && ControllerName(slot.machine)
    requires forall t :: i <= t <= j ==> slot in states[t].machines
    ensures NoSmallerDisks(states[i].machines[slot], states[j].machines[slot])
    decreases j
  {
    hide IsRun, ReadsAgree, Raises, Resizes, ControllerName;
    if i < j {
      DisksOverLife(states, steps, i, j - 1, slot);
      assert |states| == |steps| + 1 by { RunLength(states, steps); }
      DisksOnlyGrow(states, steps, j - 1, slot);
    }
  }

  lemma RunLength(states: seq<Cluster>, steps: seq<Step>)
    requires IsRun(states, steps)
    ensures |states| == |steps| + 1
  {
    hide Enabled, Apply;
  }

  lemma PerformStep(s: Cluster, step: Step, s': Cluster)
    requires Enabled(s, step) && step.Perform? && s' == Apply(s, step)
    ensures WorkerOf(s, step.k).Planned? && WorkerOf(s, step.k).plan.Call?
    ensures s' == AfterPerform(s, step.k, step.effect, step.made, step.outcome)
    ensures HonestOutcome(step.effect, step.made, step.outcome, WorkerOf(s, step.k).plan.call,
                          Slot(Target(WorkerOf(s, step.k).view), CallName(WorkerOf(s, step.k).plan.call)) in s.machines)
  {
    hide AfterPerform;
  }

  lemma OtherDisks(s: Cluster, step: Step, slot: Slot)
    requires Enabled(s, step) && !step.Perform? && ControllerName(slot.machine)
    requires slot in s.machines && slot in Apply(s, step).machines
    ensures NoSmallerDisks(s.machines[slot], Apply(s, step).machines[slot])
  {
    hide Newborn, HonestView, HonestOutcome, ListsAll, AfterFetch, AfterLook, AfterPerform, AfterReread,
      AfterCommitStatus, AfterCommitObject, StableMachineName, ControllerName, Admitted, Doomed, OwnedNames, Hist;
    if step.CommitStatus? {
      CommitStatusGrows(s, step.k, step.k);
    } else if step.CommitObject? {
      CommitObjectGrows(s, step.k, step.k);
    } else if step.Fetch? || step.Look? || step.Reread? || step.GiveUp? {
      ReconcileGrows(s, step, step.k);
    }
  }

  lemma PerformDisks(s: Cluster, s': Cluster, k: Key, effect: bool, made: MachineInfo, outcome: CallOutcome, slot: Slot)
    requires Inv(s) && WorkerOf(s, k).Planned? && WorkerOf(s, k).plan.Call?
    requires s' == AfterPerform(s, k, effect, made, outcome)
    requires slot in s.machines && slot in s'.machines
    ensures var w := WorkerOf(s, k);
            && NoSmallerDisks(s.machines[slot], s'.machines[slot])
            && (effect && w.plan.call.Resize? && slot == Home(w.vm) ==>
                  Raises(w.vm.spec, s.machines[slot], s'.machines[slot]) && w.view.got.Found? && !Running(w.view.got.info))
  {
    hide Inv, KeyOk, StableMachineName, HistOk, PlanFacts, PlanMachines, AfterCall, NoSmallerDisks, Raises, Running;
    InvKey(s, k);
    PlannedFacts(s, k);
    PerformHome(s, k);
    CallDisks(WorkerOf(s, k).vm, WorkerOf(s, k).view, WorkerOf(s, k).plan.call, s.machines, effect, made, slot);
  }

  lemma CallDisks(vm: SmolVM, view: View, call: RuntimeCall, ms: map<Slot, MachineInfo>, effect: bool, made: MachineInfo, slot: Slot)
    requires PlanFacts(vm, view, Call(call)) && PlanMachines(vm, view, Call(call), ms)
    requires var ms' := if effect then CallEffect(ms, Home(vm), call, made) else ms; slot in ms && slot in ms'
    ensures var ms' := if effect then CallEffect(ms, Home(vm), call, made) else ms;
            && NoSmallerDisks(ms[slot], ms'[slot])
            && (effect && call.Resize? && slot == Home(vm) ==>
                  Raises(vm.spec, ms[slot], ms'[slot]) && view.got.Found? && !Running(view.got.info))
  {
    if call.Resize? && slot == Home(vm) {
      ResizeCall(vm, view, ms);
    }
    hide MachineName, RuntimeChecked, SpecProblem, Raises;
  }

  /** In every reachable state every committed status is coherent. */
  lemma StatusCoherent(states: seq<Cluster>, steps: seq<Step>, i: nat, k: Key, v: nat)
    requires GoodRun(states, steps) && i < |states| && v < |Hist(states[i], k)| && Hist(states[i], k)[v].At?
    ensures Coherent(Hist(states[i], k)[v].vm.status)
  {
    RunInv(states, steps, i);
    hide Inv, KeyOk, HistOk, Coherent, StableMachineName;
    InvKey(states[i], k);
    KeyHist(states[i], k);
    VersionOk(states[i], k, v);
  }
}
