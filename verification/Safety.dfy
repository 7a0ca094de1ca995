/** The invariant of the protocol, and that every step keeps it. */
module Safety {
  import opened Types
  import opened StatusWriter
  import opened Scheduler
  import opened Decision
  import opened Sweeper
  import opened Protocol

  // ---- Per-key invariant ------------------------------------------------------------

  predicate Same(a: SmolVM, b: SmolVM) { StableMachineName(a) == StableMachineName(b) }

  /** A committed version: identity, a pin given at birth honoured, coherent status. */
  ghost predicate VmOk(vm: SmolVM, k: Key, births: map<string, Birth>) {
    var m := StableMachineName(vm);
    && Key(vm.namespace, vm.name) == k && |vm.tag| == 10 && Admitted(vm.spec)
    && m in births && births[m].key == k && births[m].uid == vm.uid
    && (births[m].pin != "" ==> vm.spec.nodeName == births[m].pin && (vm.Bound() ==> vm.status.nodeName == births[m].pin))
    && (vm.status.machineName == "" || vm.status.machineName == m)
    && (vm.Bound() ==> vm.status.machineName == m)
    && Coherent(vm.status)
  }

  /** How one VM may look later: deletion and the finalizer stay, and so do pin and binding. */
  predicate Later(a: SmolVM, b: SmolVM) {
    && (a.deleting ==> b.deleting)
    && PinStays(a, b) && Newer(a, b)
    && (a.finalizer ==> b.finalizer)
    && (a.Bound() ==> b.status.nodeName == a.status.nodeName && b.status.machineName == a.status.machineName)
  }

  /** Generations grow, and one generation has one spec. */
  predicate Newer(a: SmolVM, b: SmolVM) { a.generation <= b.generation && (a.generation == b.generation ==> a.spec == b.spec) }

  predicate PinStays(a: SmolVM, b: SmolVM) { a.spec.nodeName != "" ==> b.spec.nodeName == a.spec.nodeName }

  ghost predicate Legal(h: seq<Version>, k: Key, births: map<string, Birth>) {
    forall i :: 0 <= i < |h| && h[i].At? ==> VmOk(h[i].vm, k, births)
  }

  ghost predicate Ordered(h: seq<Version>) {
    forall i, j :: 0 <= i <= j < |h| && h[i].At? && h[j].At? && Same(h[i].vm, h[j].vm) ==> Later(h[i].vm, h[j].vm)
  }

  /** A version the controller may still read that holds the finalizer and is not being deleted
      belongs to a VM that still exists. */
  ghost predicate LiveStays(h: seq<Version>, c: nat) {
    forall i, j :: c <= i <= j < |h| && h[i].At? && h[i].vm.finalizer && !h[i].vm.deleting ==>
      h[j].At? && Same(h[i].vm, h[j].vm)
  }

  /** A bound VM has been read by the controller, which will not read an earlier VM of that name. */
  ghost predicate BoundSeen(h: seq<Version>, c: nat) {
    forall i, j :: c <= i <= j < |h| && h[j].At? && h[j].vm.Bound() ==> h[i].At? && Same(h[i].vm, h[j].vm)
  }

  ghost predicate HistOk(h: seq<Version>, c: nat, k: Key, births: map<string, Birth>) {
    && (c < |h| || (c == 0 && h == []))
    && Legal(h, k, births) && Ordered(h) && LiveStays(h, c) && BoundSeen(h, c)
  }

  function Home(vm: SmolVM): Slot { Slot(vm.status.nodeName, MachineName(vm)) }

  /** What a plan in flight relies on at the runtime. */
  ghost predicate PlanMachines(vm: SmolVM, view: View, plan: Plan, ms: map<Slot, MachineInfo>) {
    && (plan == DropFinalizer(false) && vm.Bound() ==> Home(vm) !in ms)
    && (plan.Call? && plan.call.Create? ==> Home(vm) !in ms)
    && (plan.Call? && plan.call.Resize? && view.got.Found? && Home(vm) in ms ==>
          ms[Home(vm)].storageGB == view.got.info.storageGB && ms[Home(vm)].overlayGB == view.got.info.overlayGB)
  }

  /** A status about to be committed: still a legal version, of the VM the reconcile first read, and
      a new binding is one the scheduler chose for it. */
  ghost predicate DraftOk(vm: SmolVM, view: View, latest: SmolVM, st: Status, k: Key, births: map<string, Birth>) {
    && VmOk(latest.(status := st), k, births)
    && Same(vm, latest) && Later(vm, latest) && Later(latest, latest.(status := st))
    && latest.status.nodeName == vm.status.nodeName
    && (!latest.Bound() && st.nodeName != "" ==>
          && vm.uid == latest.uid && Admitted(vm.spec)
          && !vm.Bound() && SpecProblem(vm).None?
          && Schedule(vm, view.nodes, view.vms, view.kube, view.now) == Placed(st.nodeName))
  }

  ghost predicate WorkerOk(h: seq<Version>, c: nat, w: Worker, ms: map<Slot, MachineInfo>, k: Key, births: map<string, Birth>) {
    match w
    case Idle => true
    case Fetched(vm, rv) => rv == c < |h| && h[c] == At(vm)
    case Planned(vm, rv, view, plan) =>
      rv == c < |h| && h[c] == At(vm) && PlanFacts(vm, view, plan) && PlanMachines(vm, view, plan, ms)
    case Drafted(vm, view, latest, rv, st) => rv == c < |h| && h[c] == At(latest) && DraftOk(vm, view, latest, st, k, births)
  }

  ghost predicate KeyOk(s: Cluster, k: Key) {
    && HistOk(Hist(s, k), SeenOf(s, k), k, s.births)
    && WorkerOk(Hist(s, k), SeenOf(s, k), WorkerOf(s, k), s.machines, k, s.births)
  }

  // ---- Cluster-wide invariant -------------------------------------------------------

  /** The existing VM a machine name belongs to, if any. */
  function CurNamed(s: Cluster, m: string): Option<SmolVM> {
    if m in s.births && Cur(s, s.births[m].key).At? && StableMachineName(Cur(s, s.births[m].key).vm) == m
    then Some(Cur(s, s.births[m].key).vm) else None
  }

  /** The machine's VM exists, holds the finalizer and is bound to the machine's node. */
  predicate Sheltered(s: Cluster, slot: Slot) {
    var owner := CurNamed(s, slot.machine);
    owner.Some? && owner.value.finalizer && owner.value.Bound() && owner.value.status.nodeName == slot.node
  }

  predicate Abandoned(s: Cluster, slot: Slot) {
    slot.machine in s.abandoned && s.abandoned[slot.machine] == slot.node
  }

  ghost predicate MachinesOk(s: Cluster) {
    forall slot :: slot in s.machines && ControllerName(slot.machine) ==> Sheltered(s, slot) || Abandoned(s, slot)
  }

  ghost predicate AbandonedOk(s: Cluster) {
    forall m :: m in s.abandoned ==> m in s.births && CurNamed(s, m).None?
  }

  ghost predicate BirthsOk(s: Cluster) {
    && (forall m :: m in s.births ==> |m| >= 10 && ControllerName(m))
    && (forall m, m' :: m in s.births && m' in s.births && s.births[m].uid == s.births[m'].uid ==> m == m')
  }

  /** A listed machine's VM, while it exists, is bound to the sweeper's node. */
  ghost predicate ListedOk(s: Cluster, n: string, m: string) {
    m in s.births && (CurNamed(s, m).Some? ==> CurNamed(s, m).value.Bound() && CurNamed(s, m).value.status.nodeName == n)
  }

  /** A condemned machine's VM is gone or being deleted. */
  ghost predicate CondemnedOk(s: Cluster, m: string) {
    m in s.births && (CurNamed(s, m).Some? ==> CurNamed(s, m).value.deleting)
  }

  ghost predicate SweepsOk(s: Cluster) {
    forall n :: n in s.sweeps ==>
      match s.sweeps[n]
      case Resting => true
      case Listed(names) => forall m :: m in names && ControllerName(m) ==> ListedOk(s, n, m)
      case Condemned(names) => forall m :: m in names ==> CondemnedOk(s, m)
  }

  ghost predicate Inv(s: Cluster) {
    (forall k :: KeyOk(s, k)) && MachinesOk(s) && AbandonedOk(s) && BirthsOk(s) && SweepsOk(s)
  }

  lemma InitInv(s: Cluster)
    requires Init(s)
    ensures Inv(s)
  {
  }

  // ---- Extending one log ------------------------------------------------------------

  lemma LogNext(h: seq<Version>, c: nat, k: Key, births: map<string, Birth>, b: SmolVM)
    requires HistOk(h, c, k, births) && Newest(h).At?
    requires VmOk(b, k, births) && Same(Newest(h).vm, b) && Later(Newest(h).vm, b)
    requires b.Bound() ==> Newest(h).vm.Bound() || c + 1 == |h|
    ensures HistOk(h + [At(b)], c, k, births)
  {
    hide VmOk, StableMachineName;
    var h', n := h + [At(b)], |h|;
    assert forall i :: 0 <= i < n ==> h'[i] == h[i];
    forall i | 0 <= i < n && h[i].At? && Same(h[i].vm, b) ensures Later(h[i].vm, b) {
      assert Later(h[i].vm, h[n - 1].vm);
    }
    forall i | c <= i < n && h[i].At? && h[i].vm.finalizer && !h[i].vm.deleting ensures Same(h[i].vm, b) {
      assert h[n - 1].At?;
    }
    forall i | c <= i < n && b.Bound() ensures h[i].At? && Same(h[i].vm, b) {
      if h[n - 1].vm.Bound() {
        assert h[i].At? && Same(h[i].vm, h[n - 1].vm);
      }
    }
  }

  lemma LogGone(h: seq<Version>, c: nat, k: Key, births: map<string, Birth>)
    requires HistOk(h, c, k, births) && Newest(h).At?
    requires Newest(h).vm.finalizer ==> Newest(h).vm.deleting && c + 1 == |h|
    ensures HistOk(h + [Gone], c, k, births)
  {
    hide VmOk, StableMachineName;
    var h', n := h + [Gone], |h|;
    assert forall i :: 0 <= i < n ==> h'[i] == h[i];
    forall i | c <= i < n && h[i].At? && h[i].vm.finalizer ensures h[i].vm.deleting {
      assert Same(h[i].vm, h[n - 1].vm) ==> Later(h[i].vm, h[n - 1].vm);
    }
  }

  lemma LogBirth(h: seq<Version>, c: nat, k: Key, births: map<string, Birth>, births': map<string, Birth>, b: SmolVM)
    requires HistOk(h, c, k, births) && Newest(h).Gone?
    requires forall m :: m in births ==> m in births' && births'[m] == births[m]
    requires VmOk(b, k, births') && StableMachineName(b) !in births && !b.Bound()
    ensures HistOk(h + [At(b)], c, k, births')
  {
    hide Coherent, StableMachineName;
    var h', n := h + [At(b)], |h|;
    assert forall i :: 0 <= i < n ==> h'[i] == h[i];
    assert forall i :: 0 <= i < n && h[i].At? ==> StableMachineName(h[i].vm) in births;
    assert n > 0 ==> h[n - 1].Gone?;
  }

  lemma WorkerPrefix(h: seq<Version>, v: Version, c: nat, w: Worker, ms: map<Slot, MachineInfo>, k: Key, births: map<string, Birth>)
    requires WorkerOk(h, c, w, ms, k, births)
    ensures WorkerOk(h + [v], c, w, ms, k, births)
  {
  }

  // ---- Frames -----------------------------------------------------------------------

  /** Nothing but the log, cursor and worker of `k`, and the history variables, changed. */
  ghost predicate OnlyKey(s: Cluster, s': Cluster, k: Key) {
    && (forall k' :: k' != k ==> Hist(s', k') == Hist(s, k') && SeenOf(s', k') == SeenOf(s, k') && WorkerOf(s', k') == WorkerOf(s, k'))
    && s'.machines == s.machines && s'.sweeps == s.sweeps
    && (forall m :: m in s.births ==> m in s'.births && s'.births[m] == s.births[m])
  }

  lemma KeyGrow(h: seq<Version>, c: nat, w: Worker, ms: map<Slot, MachineInfo>, k: Key, births: map<string, Birth>, births': map<string, Birth>)
    requires HistOk(h, c, k, births) && WorkerOk(h, c, w, ms, k, births)
    requires forall m :: m in births ==> m in births' && births'[m] == births[m]
    ensures HistOk(h, c, k, births') && WorkerOk(h, c, w, ms, k, births')
  {
    hide Coherent, StableMachineName, PlanFacts, PlanMachines, Schedule;
  }

  lemma OtherKeys(s: Cluster, s': Cluster, k: Key)
    requires Inv(s) && OnlyKey(s, s', k) && KeyOk(s', k)
    ensures forall k' :: KeyOk(s', k')
  {
    hide HistOk, WorkerOk;
    forall k' ensures KeyOk(s', k') {
      if k' != k {
        assert KeyOk(s, k');
        KeyGrow(Hist(s, k'), SeenOf(s, k'), WorkerOf(s, k'), s.machines, k', s.births, s'.births);
      }
    }
  }

  /** A step of one worker that commits nothing. */
  lemma WorkerStep(s: Cluster, s': Cluster, k: Key)
    requires Inv(s) && OnlyKey(s, s', k) && Hist(s', k) == Hist(s, k)
    requires s'.births == s.births && s'.abandoned == s.abandoned
    requires KeyOk(s', k)
    ensures Inv(s')
  {
    hide VmOk, PlanFacts, PlanMachines, DraftOk, StableMachineName;
    OtherKeys(s, s', k);
    forall m ensures CurNamed(s', m) == CurNamed(s, m) {
      if m in s.births {
        assert Hist(s', s.births[m].key) == Hist(s, s.births[m].key);
      }
    }
  }

  /** The VM of a machine name moves on or goes, and does not go while it holds the finalizer. */
  ghost predicate Onward(s: Cluster, s': Cluster, m: string) {
    && (CurNamed(s', m).Some? ==> CurNamed(s, m).Some? && Later(CurNamed(s, m).value, CurNamed(s', m).value))
    && (CurNamed(s, m).Some? && CurNamed(s, m).value.finalizer ==> CurNamed(s', m).Some?)
  }

  /** A commit that loses no finalized VM. */
  lemma CommitStep(s: Cluster, s': Cluster, k: Key)
    requires Inv(s) && OnlyKey(s, s', k) && s'.abandoned == s.abandoned && BirthsOk(s')
    requires KeyOk(s', k)
    requires forall m :: m in s.births ==> Onward(s, s', m)
    ensures Inv(s')
  {
    hide KeyOk, StableMachineName;
    OtherKeys(s, s', k);
    forall slot | slot in s'.machines && ControllerName(slot.machine) ensures Sheltered(s', slot) || Abandoned(s', slot) {
      if Sheltered(s, slot) {
        assert Onward(s, s', slot.machine);
      }
    }
    forall m | m in s'.abandoned ensures CurNamed(s', m).None? {
      assert Onward(s, s', m);
    }
  }

  /** Appending the next version of the VM that is there moves every machine name onward. */
  lemma NextOnward(s: Cluster, s': Cluster, k: Key, b: SmolVM)
    requires Inv(s) && OnlyKey(s, s', k) && s'.births == s.births
    requires Cur(s, k).At? && Same(Cur(s, k).vm, b) && Later(Cur(s, k).vm, b) && Hist(s', k) == Hist(s, k) + [At(b)]
    ensures forall m :: m in s.births ==> Onward(s, s', m)
  {
    hide VmOk, PlanFacts, PlanMachines, DraftOk, StableMachineName;
    forall m | m in s.births ensures Onward(s, s', m) {
      var k' := s.births[m].key;
      assert k' != k ==> Hist(s', k') == Hist(s, k');
    }
  }

  // ---- The steps of one reconcile ---------------------------------------------------

  lemma FetchInv(s: Cluster, k: Key, rv: nat)
    requires Inv(s) && WorkerOf(s, k).Idle? && SeenOf(s, k) <= rv < |Hist(s, k)|
    ensures Inv(AfterFetch(s, k, rv))
  {
    hide VmOk, PlanFacts, DraftOk, StableMachineName, MachinesOk, AbandonedOk, BirthsOk, SweepsOk;
    assert KeyOk(s, k);
    WorkerStep(s, AfterFetch(s, k, rv), k);
  }

  /** A fresh look puts into the plan only what the runtime just showed. */
  lemma LookMachines(s: Cluster, vm: SmolVM, view: View)
    requires HonestView(s, vm, view) && MachineName(vm) != ""
    ensures PlanFacts(vm, view, Decide(vm, view)) && PlanMachines(vm, view, Decide(vm, view), s.machines)
  {
    DecideFacts(vm, view);
    hide RuntimeProblem, Schedule, SpecProblem, StableMachineName, DecideFound;
    if Decide(vm, view).Call? {
      assert Home(vm) == Slot(Target(view), MachineName(vm));
    }
  }

  lemma LookInv(s: Cluster, k: Key, view: View)
    requires Inv(s) && WorkerOf(s, k).Fetched? && HonestView(s, WorkerOf(s, k).vm, view)
    ensures Inv(AfterLook(s, k, view))
  {
    hide HistOk, Decide, PlanFacts, PlanMachines, DraftOk, MachinesOk, AbandonedOk, BirthsOk, SweepsOk, HonestView;
    assert KeyOk(s, k);
    var w := WorkerOf(s, k);
    NamedMachine(s, k);
    LookMachines(s, w.vm, view);
    WorkerStep(s, AfterLook(s, k, view), k);
  }

  lemma NamedMachine(s: Cluster, k: Key)
    requires KeyOk(s, k) && (WorkerOf(s, k).Fetched? || WorkerOf(s, k).Planned?)
    ensures var vm := WorkerOf(s, k).vm;
            MachineName(vm) != "" && MachineName(vm) == StableMachineName(vm) && VmOk(vm, k, s.births)
  {
    hide Coherent, PlanFacts, PlanMachines;
    var vm := WorkerOf(s, k).vm;
    DistinctTagsDistinctNames(vm, vm);
  }

  lemma GiveUpInv(s: Cluster, k: Key)
    requires Inv(s)
    ensures Inv(SetWorker(s, k, Idle))
  {
    hide HistOk, MachinesOk, AbandonedOk, BirthsOk, SweepsOk;
    assert KeyOk(s, k);
    WorkerStep(s, SetWorker(s, k, Idle), k);
  }

  /** A reconcile that still holds a live copy of a bound VM: the VM exists, with that binding. */
  lemma LiveSheltered(s: Cluster, k: Key)
    requires KeyOk(s, k) && WorkerOf(s, k).Planned?
    requires var vm := WorkerOf(s, k).vm; !vm.deleting && vm.finalizer && vm.Bound()
    ensures Sheltered(s, Home(WorkerOf(s, k).vm))
  {
    hide Coherent, PlanFacts, PlanMachines, StableMachineName;
    var vm, h := WorkerOf(s, k).vm, Hist(s, k);
    NamedMachine(s, k);
    var now := h[|h| - 1];
    assert now.At? && Same(vm, now.vm) && Later(vm, now.vm);
    assert VmOk(now.vm, k, s.births);
  }

  /** Outside one slot, no machine of ours appears or changes its disks. */
  ghost predicate TameExcept(ms: map<Slot, MachineInfo>, ms': map<Slot, MachineInfo>, home: Slot) {
    forall slot :: slot in ms' && ControllerName(slot.machine) && slot != home ==>
      slot in ms && ms'[slot].storageGB == ms[slot].storageGB && ms'[slot].overlayGB == ms[slot].overlayGB
  }

  lemma WorkerTame(s: Cluster, k: Key, ms': map<Slot, MachineInfo>, home: Slot)
    requires KeyOk(s, k) && TameExcept(s.machines, ms', home)
    requires WorkerOf(s, k).Planned? ==> MachineName(WorkerOf(s, k).vm) != home.machine || home !in ms'
    ensures WorkerOk(Hist(s, k), SeenOf(s, k), WorkerOf(s, k), ms', k, s.births)
  {
    if WorkerOf(s, k).Planned? {
      NamedMachine(s, k);
      DistinctTagsDistinctNames(WorkerOf(s, k).vm, WorkerOf(s, k).vm);
      hide HistOk, PlanFacts, VmOk, StableMachineName;
      assert Home(WorkerOf(s, k).vm) != home || home !in ms';
    }
  }

  /** A change to machines, at most one of them ours, and to at most the worker it belongs to. */
  lemma MachineStep(s: Cluster, s': Cluster, k: Key, home: Slot)
    requires Inv(s) && s' == s.(machines := s'.machines, workers := s'.workers)
    requires forall k' :: k' != k ==> WorkerOf(s', k') == WorkerOf(s, k')
    requires TameExcept(s.machines, s'.machines, home)
    requires home !in s'.machines || (home.machine in s.births && s.births[home.machine].key == k && Sheltered(s, home))
    requires KeyOk(s', k)
    ensures Inv(s')
  {
    hide HistOk, WorkerOk, AbandonedOk, BirthsOk, SweepsOk;
    assert forall k' :: Hist(s', k') == Hist(s, k') && SeenOf(s', k') == SeenOf(s, k');
    forall k' ensures KeyOk(s', k') {
      if k' != k {
        assert KeyOk(s, k');
        WorkerElsewhere(s, k', k, home, s'.machines);
      }
    }
    assert forall m :: CurNamed(s', m) == CurNamed(s, m);
    forall slot | slot in s'.machines && ControllerName(slot.machine) ensures Sheltered(s', slot) || Abandoned(s', slot) {
      assert slot != home ==> slot in s.machines;
    }
    SameHistoryRest(s, s');
  }

  lemma SameHistoryRest(s: Cluster, s': Cluster)
    requires AbandonedOk(s) && BirthsOk(s) && SweepsOk(s)
    requires s' == s.(machines := s'.machines, workers := s'.workers)
    ensures AbandonedOk(s') && BirthsOk(s') && SweepsOk(s')
  {
    hide StableMachineName;
    assert forall m :: CurNamed(s', m) == CurNamed(s, m);
  }

  lemma WorkerElsewhere(s: Cluster, k': Key, k: Key, home: Slot, ms': map<Slot, MachineInfo>)
    requires KeyOk(s, k') && k' != k && TameExcept(s.machines, ms', home)
    requires home !in ms' || (home.machine in s.births && s.births[home.machine].key == k)
    ensures WorkerOk(Hist(s, k'), SeenOf(s, k'), WorkerOf(s, k'), ms', k', s.births)
  {
    hide HistOk, PlanFacts, PlanMachines, Coherent, StableMachineName;
    if WorkerOf(s, k').Planned? {
      NamedMachine(s, k');
    }
    WorkerTame(s, k', ms', home);
  }

  lemma CallTame(ms: map<Slot, MachineInfo>, home: Slot, call: RuntimeCall, made: MachineInfo)
    ensures TameExcept(ms, CallEffect(ms, home, call, made), home)
    ensures call.Delete? ==> home !in CallEffect(ms, home, call, made)
  {
  }

  /** The plan after a runtime call relies only on what the call did. */
  lemma PerformMachines(vm: SmolVM, view: View, call: RuntimeCall, ms: map<Slot, MachineInfo>, effect: bool, made: MachineInfo, outcome: CallOutcome)
    requires PlanFacts(vm, view, Call(call))
    requires HonestOutcome(effect, made, outcome, call, Home(vm) in ms)
    ensures var plan, ms' := AfterCall(vm, call, outcome), if effect then CallEffect(ms, Home(vm), call, made) else ms;
            PlanFacts(vm, view, plan) && PlanMachines(vm, view, plan, ms')
  {
    AfterCallFacts(vm, view, call, outcome);
    hide PlanFacts, MachineName;
  }

  lemma PerformInv(s: Cluster, k: Key, effect: bool, made: MachineInfo, outcome: CallOutcome)
    requires Inv(s) && Enabled(s, Perform(k, effect, made, outcome))
    ensures Inv(AfterPerform(s, k, effect, made, outcome))
  {
    hide HistOk, PlanFacts, PlanMachines, VmOk, MachinesOk, AbandonedOk, BirthsOk, SweepsOk, HonestOutcome, AfterCall, CallEffect, DraftOk;
    assert KeyOk(s, k);
    var w, s' := WorkerOf(s, k), AfterPerform(s, k, effect, made, outcome);
    PerformHome(s, k);
    PerformMachines(w.vm, w.view, w.plan.call, s.machines, effect, made, outcome);
    if !effect {
      WorkerStep(s, s', k);
    } else {
      PerformShelter(s, k);
      CallTame(s.machines, Home(w.vm), w.plan.call, made);
      MachineStep(s, s', k, Home(w.vm));
    }
  }

  lemma PerformHome(s: Cluster, k: Key)
    requires KeyOk(s, k) && WorkerOf(s, k).Planned? && WorkerOf(s, k).plan.Call?
    ensures var w := WorkerOf(s, k);
            && PlanFacts(w.vm, w.view, w.plan) && Home(w.vm) == Slot(Target(w.view), CallName(w.plan.call))
            && Home(w.vm).machine in s.births && s.births[Home(w.vm).machine].key == k
  {
    hide HistOk, PlanMachines, Coherent, StableMachineName;
    NamedMachine(s, k);
  }

  lemma PerformShelter(s: Cluster, k: Key)
    requires KeyOk(s, k) && WorkerOf(s, k).Planned? && WorkerOf(s, k).plan.Call?
    ensures !WorkerOf(s, k).plan.call.Delete? ==> Sheltered(s, Home(WorkerOf(s, k).vm))
  {
    hide HistOk, PlanMachines, Coherent, StableMachineName;
    if !WorkerOf(s, k).plan.call.Delete? {
      LiveSheltered(s, k);
    }
  }

  lemma CursorForward(h: seq<Version>, c: nat, c': nat, k: Key, births: map<string, Birth>)
    requires HistOk(h, c, k, births) && c <= c' < |h|
    ensures HistOk(h, c', k, births)
  {
    hide VmOk, Same, Later;
  }

  /** The second read shows the VM of the first: a status is written only for a VM that is live
      and finalized, or bound, and neither can have been replaced. */
  lemma SecondReadSame(h: seq<Version>, c: nat, rv: nat, vm: SmolVM, view: View, input: StatusInput, k: Key, births: map<string, Birth>)
    requires HistOk(h, c, k, births) && c <= rv < |h| && h[c] == At(vm) && h[rv].At?
    requires PlanFacts(vm, view, WriteStatus(input))
    requires h[rv].vm.status.nodeName == vm.status.nodeName
    ensures Same(vm, h[rv].vm) && Later(vm, h[rv].vm)
  {
    hide InputCoherent, Schedule, SpecProblem, VmOk, Later, Same;
    if vm.deleting {
      assert h[rv].vm.Bound();
    }
  }

  /** The status computed from two reads that agree is fit to commit. */
  lemma DraftFit(vm: SmolVM, view: View, input: StatusInput, latest: SmolVM, now: Time, k: Key, births: map<string, Birth>)
    requires VmOk(vm, k, births) && VmOk(latest, k, births) && Same(vm, latest) && Later(vm, latest)
    requires PlanFacts(vm, view, WriteStatus(input)) && latest.status.nodeName == vm.status.nodeName
    ensures DraftOk(vm, view, latest, StatusAfter(latest.status, input, latest.generation, now), k, births)
  {
    var st := StatusAfter(latest.status, input, latest.generation, now);
    CoherentAfter(latest.status, input, latest.generation, now);
    ScheduleExact(vm, view.nodes, view.vms, view.kube, view.now, BoundVMs(view.vms, vm));
    hide Schedule, SpecProblem, Settings, SetAll, BoundVMs, NodeReject, InputCoherent, FirstAccepted, AllRejected, PortsFromRuntime, FindNode;
    assert Coherent(st);
    hide Coherent;
    assert Same(latest, latest.(status := st));
    assert st.machineName == StableMachineName(latest);
  }

  lemma RereadKey(s: Cluster, k: Key, rv: nat, now: Time)
    requires KeyOk(s, k) && Enabled(s, Reread(k, rv, now)) && ReadsAgree(s, Reread(k, rv, now))
    ensures KeyOk(AfterReread(s, k, rv, now), k)
  {
    hide VmOk, PlanFacts, PlanMachines, DraftOk, HistOk, StatusAfter, Same;
    var w, h, c := WorkerOf(s, k), Hist(s, k), SeenOf(s, k);
    CursorForward(h, c, rv, k, s.births);
    if h[rv].At? {
      SecondReadSame(h, c, rv, w.vm, w.view, w.plan.input, k, s.births);
      VersionOk(s, k, c);
      VersionOk(s, k, rv);
      DraftFit(w.vm, w.view, w.plan.input, h[rv].vm, now, k, s.births);
    }
  }

  lemma RereadFrame(s: Cluster, s': Cluster, k: Key, rv: nat, now: Time)
    requires WorkerOf(s, k).Planned? && WorkerOf(s, k).plan.WriteStatus? && rv < |Hist(s, k)| && s' == AfterReread(s, k, rv, now)
    ensures OnlyKey(s, s', k) && Hist(s', k) == Hist(s, k) && s'.births == s.births && s'.abandoned == s.abandoned
  {
    hide RereadWorker;
  }

  lemma RereadInv(s: Cluster, s': Cluster, k: Key, rv: nat, now: Time)
    requires Inv(s) && Enabled(s, Reread(k, rv, now)) && ReadsAgree(s, Reread(k, rv, now))
    requires s' == AfterReread(s, k, rv, now)
    ensures Inv(s')
  {
    hide Inv, KeyOk, AfterReread, ReadsAgree, OnlyKey;
    InvKey(s, k);
    RereadKey(s, k, rv, now);
    RereadFrame(s, s', k, rv, now);
    WorkerStep(s, s', k);
  }

  lemma VersionOk(s: Cluster, k: Key, i: nat)
    requires HistOk(Hist(s, k), SeenOf(s, k), k, s.births) && i < |Hist(s, k)| && Hist(s, k)[i].At?
    ensures VmOk(Hist(s, k)[i].vm, k, s.births)
  {
    hide VmOk;
  }

  /** The state after a commit by the worker of `k`. */
  ghost predicate Commits(s: Cluster, s': Cluster, k: Key, v: Version, abandoned: map<string, string>) {
    && OnlyKey(s, s', k) && s'.births == s.births && s'.abandoned == abandoned
    && Hist(s', k) == Hist(s, k) + [v] && SeenOf(s', k) == SeenOf(s, k) && WorkerOf(s', k).Idle?
  }

  lemma CommitFrame(s: Cluster, k: Key, v: Version, abandoned: map<string, string>)
    ensures Commits(s, Committed(s, k, v, abandoned), k, v, abandoned)
  {
  }

  lemma CommitStatusInv(s: Cluster, s': Cluster, k: Key)
    requires Inv(s) && WorkerOf(s, k).Drafted? && s' == AfterCommitStatus(s, k)
    ensures Inv(s')
  {
    hide Inv, KeyOk, Commits, Committed;
    InvKey(s, k);
    var w := WorkerOf(s, k);
    if w.rv + 1 == |Hist(s, k)| {
      CommitFrame(s, k, At(w.latest.(status := w.status)), s.abandoned);
      CommitDraft(s, s', k, w.latest.(status := w.status));
    } else {
      GiveUpInv(s, k);
    }
  }

  lemma CommitDraft(s: Cluster, s': Cluster, k: Key, b: SmolVM)
    requires Inv(s) && WorkerOf(s, k).Drafted? && WorkerOf(s, k).rv + 1 == |Hist(s, k)|
    requires b == WorkerOf(s, k).latest.(status := WorkerOf(s, k).status)
    requires Commits(s, s', k, At(b), s.abandoned)
    ensures Inv(s')
  {
    hide Inv, KeyOk, VmOk, HistOk, StableMachineName, Later, OnlyKey, BirthsOk;
    InvKey(s, k);
    SameStatus(WorkerOf(s, k).latest, WorkerOf(s, k).status);
    CommittedLog(s, k, b);
    assert KeyOk(s', k) by { IdleKeyOk(s', k); }
    NextOnward(s, s', k, b);
    InvBirths(s, s');
    CommitStep(s, s', k);
  }

  lemma IdleKeyOk(s: Cluster, k: Key)
    requires WorkerOf(s, k).Idle? && HistOk(Hist(s, k), SeenOf(s, k), k, s.births)
    ensures KeyOk(s, k)
  {
    hide HistOk;
  }

  lemma CommittedLog(s: Cluster, k: Key, b: SmolVM)
    requires KeyOk(s, k) && WorkerOf(s, k).Drafted? && WorkerOf(s, k).rv + 1 == |Hist(s, k)|
    requires b == WorkerOf(s, k).latest.(status := WorkerOf(s, k).status) && Same(WorkerOf(s, k).latest, b)
    ensures Cur(s, k) == At(WorkerOf(s, k).latest) && Later(WorkerOf(s, k).latest, b)
    ensures HistOk(Hist(s, k) + [At(b)], SeenOf(s, k), k, s.births)
  {
    hide VmOk, HistOk, StableMachineName, Later, Schedule, SpecProblem;
    LogNext(Hist(s, k), SeenOf(s, k), k, s.births, b);
  }

  lemma InvBirths(s: Cluster, s': Cluster)
    requires Inv(s) && s'.births == s.births
    ensures BirthsOk(s')
  {
    hide KeyOk;
  }

  lemma SameStatus(vm: SmolVM, st: Status)
    ensures Same(vm, vm.(status := st))
  {
  }

  /** A commit of the next version by someone other than a draft: the binding is untouched. */
  lemma NextVersionInv(s: Cluster, s': Cluster, k: Key, b: SmolVM)
    requires Inv(s) && Cur(s, k).At? && b.status == Cur(s, k).vm.status
    requires VmOk(b, k, s.births) && Same(Cur(s, k).vm, b) && Later(Cur(s, k).vm, b)
    requires OnlyKey(s, s', k) && s'.births == s.births && s'.abandoned == s.abandoned
    requires Hist(s', k) == Hist(s, k) + [At(b)] && SeenOf(s', k) == SeenOf(s, k)
    requires WorkerOf(s', k).Idle? || WorkerOf(s', k) == WorkerOf(s, k)
    ensures Inv(s')
  {
    hide VmOk, HistOk, MachinesOk, AbandonedOk, SweepsOk, StableMachineName, WorkerOk;
    assert KeyOk(s, k);
    var h, c := Hist(s, k), SeenOf(s, k);
    LogNext(h, c, k, s.births, b);
    WorkerPrefix(h, At(b), c, WorkerOf(s, k), s.machines, k, s.births);
    assert WorkerOk(h + [At(b)], c, WorkerOf(s', k), s'.machines, k, s'.births) by { IdleOk(h + [At(b)], c, s, k); }
    NextOnward(s, s', k, b);
    CommitStep(s, s', k);
  }

  lemma IdleOk(h: seq<Version>, c: nat, s: Cluster, k: Key)
    ensures WorkerOk(h, c, Idle, s.machines, k, s.births)
  {
  }

  /** The newest version goes: its VM either never held the finalizer, or its reconcile saw to
      the machine, or it was abandoned by force. */
  lemma GoneInv(s: Cluster, s': Cluster, k: Key)
    requires Inv(s) && Cur(s, k).At?
    requires Cur(s, k).vm.finalizer ==> Cur(s, k).vm.deleting && SeenOf(s, k) + 1 == |Hist(s, k)|
    requires OnlyKey(s, s', k) && s'.births == s.births
    requires Hist(s', k) == Hist(s, k) + [Gone] && SeenOf(s', k) == SeenOf(s, k)
    requires WorkerOf(s', k).Idle? || WorkerOf(s', k) == WorkerOf(s, k)
    requires s'.abandoned == s.abandoned || s'.abandoned == s.abandoned[MachineName(Cur(s, k).vm) := Cur(s, k).vm.status.nodeName]
    requires Cur(s, k).vm.finalizer && Home(Cur(s, k).vm) in s.machines && Cur(s, k).vm.Bound() ==>
               s'.abandoned == s.abandoned[MachineName(Cur(s, k).vm) := Cur(s, k).vm.status.nodeName]
    ensures Inv(s')
  {
    hide HistOk, WorkerOk, VmOk, MachinesOk, AbandonedOk, SweepsOk, StableMachineName;
    assert KeyOk(s, k);
    var h, c, vm := Hist(s, k), SeenOf(s, k), Cur(s, k).vm;
    VersionOk(s, k, |h| - 1);
    LogGone(h, c, k, s.births);
    WorkerPrefix(h, Gone, c, WorkerOf(s, k), s.machines, k, s.births);
    assert WorkerOk(h + [Gone], c, WorkerOf(s', k), s'.machines, k, s'.births) by { IdleOk(h + [Gone], c, s, k); }
    OtherKeys(s, s', k);
    GoneNames(s, s', k);
    GoneMachines(s, s', k);
    assert SweepsOk(s') by { hide *; SweepsShrink(s, s', StableMachineName(vm)); }
  }

  lemma GoneNames(s: Cluster, s': Cluster, k: Key)
    requires Cur(s, k).At? && VmOk(Cur(s, k).vm, k, s.births)
    requires OnlyKey(s, s', k) && s'.births == s.births && Hist(s', k) == Hist(s, k) + [Gone]
    ensures var m := StableMachineName(Cur(s, k).vm);
            && m in s.births && m == MachineName(Cur(s, k).vm)
            && CurNamed(s, m) == Some(Cur(s, k).vm) && CurNamed(s', m).None?
            && forall m' :: m' != m ==> CurNamed(s', m') == CurNamed(s, m')
  {
    hide Coherent, StableMachineName;
    var m := StableMachineName(Cur(s, k).vm);
    forall m' | m' != m ensures CurNamed(s', m') == CurNamed(s, m') {
      if m' in s.births {
        assert s.births[m'].key != k ==> Hist(s', s.births[m'].key) == Hist(s, s.births[m'].key);
      }
    }
  }

  lemma GoneMachines(s: Cluster, s': Cluster, k: Key)
    requires MachinesOk(s) && AbandonedOk(s) && Cur(s, k).At?
    requires s'.machines == s.machines && s'.births == s.births
    requires var vm, m := Cur(s, k).vm, StableMachineName(Cur(s, k).vm);
             && m in s.births && m == MachineName(vm) && CurNamed(s, m) == Some(vm) && CurNamed(s', m).None?
             && (forall m' :: m' != m ==> CurNamed(s', m') == CurNamed(s, m'))
    requires s'.abandoned == s.abandoned || s'.abandoned == s.abandoned[MachineName(Cur(s, k).vm) := Cur(s, k).vm.status.nodeName]
    requires Cur(s, k).vm.finalizer && Home(Cur(s, k).vm) in s.machines && Cur(s, k).vm.Bound() ==>
               s'.abandoned == s.abandoned[MachineName(Cur(s, k).vm) := Cur(s, k).vm.status.nodeName]
    ensures MachinesOk(s') && AbandonedOk(s')
  {
    hide StableMachineName, CurNamed, MachineName;
    var vm, m := Cur(s, k).vm, MachineName(Cur(s, k).vm);
    forall slot | slot in s'.machines && ControllerName(slot.machine) ensures Sheltered(s', slot) || Abandoned(s', slot) {
      if slot.machine == m {
        assert m !in s.abandoned;
        assert Sheltered(s, slot);
        assert slot == Home(vm);
      } else {
        assert Sheltered(s, slot) || Abandoned(s, slot);
      }
    }
  }

  lemma SweepsShrink(s: Cluster, s': Cluster, m: string)
    requires SweepsOk(s) && s'.sweeps == s.sweeps && s'.births == s.births
    requires CurNamed(s', m).None?
    requires forall m' :: m' != m ==> CurNamed(s', m') == CurNamed(s, m')
    ensures SweepsOk(s')
  {
    hide CurNamed;
  }

  lemma CommitObjectInv(s: Cluster, s': Cluster, k: Key)
    requires Inv(s) && WorkerOf(s, k).Planned? && (WorkerOf(s, k).plan.AddFinalizer? || WorkerOf(s, k).plan.DropFinalizer?)
    requires s' == AfterCommitObject(s, k)
    ensures Inv(s')
  {
    hide Inv, KeyOk, Commits, Committed;
    var w := WorkerOf(s, k);
    if w.rv + 1 != |Hist(s, k)| {
      GiveUpInv(s, k);
    } else if w.plan.AddFinalizer? {
      CommitFrame(s, k, At(w.vm.(finalizer := true)), s.abandoned);
      CommitAdd(s, s', k);
    } else {
      CommitFrame(s, k, Gone, AfterDrop(s, w.vm, w.plan));
      CommitDrop(s, s', k);
    }
  }

  lemma CommitAdd(s: Cluster, s': Cluster, k: Key)
    requires Inv(s) && WorkerOf(s, k).Planned? && WorkerOf(s, k).rv + 1 == |Hist(s, k)|
    requires Commits(s, s', k, At(WorkerOf(s, k).vm.(finalizer := true)), s.abandoned)
    ensures Inv(s')
  {
    hide HistOk, Inv, KeyOk, OnlyKey, VmOk, Later, Same;
    InvKey(s, k);
    PlannedFacts(s, k);
    var w := WorkerOf(s, k);
    VersionOk(s, k, w.rv);
    Finalized(w.vm, k, s.births);
    NextVersionInv(s, s', k, w.vm.(finalizer := true));
  }

  lemma PlannedFacts(s: Cluster, k: Key)
    requires KeyOk(s, k) && WorkerOf(s, k).Planned?
    ensures var w := WorkerOf(s, k);
            && w.rv == SeenOf(s, k) < |Hist(s, k)| && Hist(s, k)[w.rv] == At(w.vm)
            && PlanFacts(w.vm, w.view, w.plan) && PlanMachines(w.vm, w.view, w.plan, s.machines)
            && HistOk(Hist(s, k), SeenOf(s, k), k, s.births)
  {
    hide HistOk, PlanFacts, PlanMachines;
  }

  lemma CommitDrop(s: Cluster, s': Cluster, k: Key)
    requires Inv(s) && WorkerOf(s, k).Planned? && WorkerOf(s, k).rv + 1 == |Hist(s, k)| && WorkerOf(s, k).plan.DropFinalizer?
    requires Commits(s, s', k, Gone, AfterDrop(s, WorkerOf(s, k).vm, WorkerOf(s, k).plan))
    ensures Inv(s')
  {
    hide HistOk, Inv, KeyOk, OnlyKey, RuntimeProblem, MachineName;
    InvKey(s, k);
    PlannedFacts(s, k);
    GoneInv(s, s', k);
  }

  lemma InvKey(s: Cluster, k: Key)
    requires Inv(s)
    ensures KeyOk(s, k)
  {
    hide KeyOk;
  }

  lemma Finalized(vm: SmolVM, k: Key, births: map<string, Birth>)
    requires VmOk(vm, k, births)
    ensures var b := vm.(finalizer := true); VmOk(b, k, births) && Same(vm, b) && Later(vm, b)
  {
    hide Coherent;
  }

  // ---- The steps of users -----------------------------------------------------------

  lemma AppendFrame(s: Cluster, s': Cluster, k: Key, v: Version)
    requires s' == Append(s, k, v)
    ensures OnlyKey(s, s', k) && s'.births == s.births && s'.abandoned == s.abandoned
    ensures Hist(s', k) == Hist(s, k) + [v] && SeenOf(s', k) == SeenOf(s, k) && WorkerOf(s', k) == WorkerOf(s, k)
  {
  }

  /** Users change specs, annotations and deletion marks, not identity, status or finalizers. */
  ghost predicate UserVersion(a: SmolVM, b: SmolVM) {
    && b.namespace == a.namespace && b.name == a.name && b.uid == a.uid && b.tag == a.tag
    && b.finalizer == a.finalizer && b.status == a.status && (a.deleting ==> b.deleting)
    && Admitted(b.spec) && Newer(a, b) && (a.spec.nodeName != "" ==> b.spec.nodeName == a.spec.nodeName)
  }

  lemma UserVersionOk(a: SmolVM, b: SmolVM, k: Key, births: map<string, Birth>)
    requires VmOk(a, k, births) && UserVersion(a, b)
    ensures VmOk(b, k, births) && Same(a, b) && Later(a, b)
  {
    hide Coherent;
  }

  lemma UserVersionInv(s: Cluster, s': Cluster, k: Key, b: SmolVM)
    requires Inv(s) && Cur(s, k).At? && UserVersion(Cur(s, k).vm, b) && s' == Append(s, k, At(b))
    ensures Inv(s')
  {
    hide Inv, KeyOk, HistOk, OnlyKey, VmOk, UserVersion, Same, Later;
    InvKey(s, k);
    KeyHist(s, k);
    VersionOk(s, k, |Hist(s, k)| - 1);
    UserVersionOk(Cur(s, k).vm, b, k, s.births);
    AppendFrame(s, s', k, At(b));
    assert b.status == Cur(s, k).vm.status by { UserStatus(Cur(s, k).vm, b); }
    NextVersionInv(s, s', k, b);
  }

  lemma UserStatus(a: SmolVM, b: SmolVM)
    requires UserVersion(a, b)
    ensures b.status == a.status
  {
  }

  lemma KeyHist(s: Cluster, k: Key)
    requires KeyOk(s, k)
    ensures HistOk(Hist(s, k), SeenOf(s, k), k, s.births)
  {
    hide HistOk;
  }

  lemma CurrentAdmitted(s: Cluster, k: Key)
    requires Inv(s) && Cur(s, k).At?
    ensures Admitted(Cur(s, k).vm.spec)
  {
    hide Inv, KeyOk, HistOk, Coherent, StableMachineName, Admitted;
    InvKey(s, k);
    KeyHist(s, k);
    VersionOk(s, k, |Hist(s, k)| - 1);
  }

  lemma UserDeleteInv(s: Cluster, s': Cluster, k: Key, generation: int)
    requires Inv(s) && Enabled(s, UserDelete(k, generation))
    requires s' == Append(s, k, if Cur(s, k).vm.finalizer then At(Cur(s, k).vm.(deleting := true, generation := generation)) else Gone)
    ensures Inv(s')
  {
    hide Inv, OnlyKey, VmOk;
    if Cur(s, k).vm.finalizer {
      CurrentAdmitted(s, k);
      UserVersionInv(s, s', k, Cur(s, k).vm.(deleting := true, generation := generation));
    } else {
      AppendFrame(s, s', k, Gone);
      GoneInv(s, s', k);
    }
  }

  lemma NewName(s: Cluster, k: Key, vm: SmolVM)
    requires Newborn(s, k, vm)
    ensures StableMachineName(vm) !in s.births && |StableMachineName(vm)| >= 10 && ControllerName(StableMachineName(vm))
  {
    var m := StableMachineName(vm);
    DistinctTagsDistinctNames(vm, vm);
    assert m[|m| - 10..] == vm.tag;
    assert Tail10(m) == vm.tag;
  }

  lemma BirthFrame(s: Cluster, s': Cluster, k: Key, vm: SmolVM)
    requires StableMachineName(vm) !in s.births
    requires s' == Append(s.(births := s.births[StableMachineName(vm) := Birth(k, vm.uid, vm.spec.nodeName)]), k, At(vm))
    ensures OnlyKey(s, s', k) && s'.abandoned == s.abandoned
    ensures Hist(s', k) == Hist(s, k) + [At(vm)] && SeenOf(s', k) == SeenOf(s, k) && WorkerOf(s', k) == WorkerOf(s, k)
    ensures s'.births == s.births[StableMachineName(vm) := Birth(k, vm.uid, vm.spec.nodeName)]
  {
  }

  lemma NewbornOk(s: Cluster, k: Key, vm: SmolVM, births': map<string, Birth>)
    requires Newborn(s, k, vm) && BirthsOk(s)
    requires births' == s.births[StableMachineName(vm) := Birth(k, vm.uid, vm.spec.nodeName)]
    ensures VmOk(vm, k, births') && !vm.Bound()
  {
    hide StableMachineName;
  }

  lemma UserCreateInv(s: Cluster, s': Cluster, k: Key, vm: SmolVM)
    requires Inv(s) && Cur(s, k).Gone? && Newborn(s, k, vm)
    requires s' == Append(s.(births := s.births[StableMachineName(vm) := Birth(k, vm.uid, vm.spec.nodeName)]), k, At(vm))
    ensures Inv(s')
  {
    hide Inv, KeyOk, HistOk, WorkerOk, VmOk, Newborn, StableMachineName, OnlyKey, BirthsOk;
    InvKey(s, k);
    InvBirths(s, s);
    NewName(s, k, vm);
    BirthFrame(s, s', k, vm);
    NewbornOk(s, k, vm, s'.births);
    BirthKey(s, s', k, vm);
    BirthOnward(s, s', k, vm);
    BirthBirths(s, s', k, vm);
    CommitStep(s, s', k);
  }

  lemma BirthKey(s: Cluster, s': Cluster, k: Key, vm: SmolVM)
    requires KeyOk(s, k) && Cur(s, k).Gone? && OnlyKey(s, s', k)
    requires Hist(s', k) == Hist(s, k) + [At(vm)] && SeenOf(s', k) == SeenOf(s, k) && WorkerOf(s', k) == WorkerOf(s, k)
    requires VmOk(vm, k, s'.births) && StableMachineName(vm) !in s.births && !vm.Bound()
    ensures KeyOk(s', k)
  {
    hide HistOk, WorkerOk, VmOk, StableMachineName;
    var h, c, w := Hist(s, k), SeenOf(s, k), WorkerOf(s, k);
    LogBirth(h, c, k, s.births, s'.births, vm);
    WorkerPrefix(h, At(vm), c, w, s.machines, k, s.births);
    WorkerGrow(h + [At(vm)], c, w, s.machines, k, s.births, s'.births);
  }

  lemma WorkerGrow(h: seq<Version>, c: nat, w: Worker, ms: map<Slot, MachineInfo>, k: Key, births: map<string, Birth>, births': map<string, Birth>)
    requires WorkerOk(h, c, w, ms, k, births)
    requires forall m :: m in births ==> m in births' && births'[m] == births[m]
    ensures WorkerOk(h, c, w, ms, k, births')
  {
    hide Coherent, StableMachineName, PlanFacts, PlanMachines, Schedule;
  }

  lemma BirthOnward(s: Cluster, s': Cluster, k: Key, vm: SmolVM)
    requires OnlyKey(s, s', k) && Cur(s, k).Gone? && Hist(s', k) == Hist(s, k) + [At(vm)]
    requires StableMachineName(vm) !in s.births
    ensures forall m :: m in s.births ==> Onward(s, s', m)
  {
    hide StableMachineName;
    forall m | m in s.births ensures Onward(s, s', m) {
      assert s.births[m].key != k ==> Hist(s', s.births[m].key) == Hist(s, s.births[m].key);
    }
  }

  lemma BirthBirths(s: Cluster, s': Cluster, k: Key, vm: SmolVM)
    requires BirthsOk(s) && Newborn(s, k, vm)
    requires |StableMachineName(vm)| >= 10 && ControllerName(StableMachineName(vm))
    requires s'.births == s.births[StableMachineName(vm) := Birth(k, vm.uid, vm.spec.nodeName)]
    ensures BirthsOk(s')
  {
    hide StableMachineName, ControllerName;
  }

  // ---- The steps of sweepers and the rest of the world ------------------------------

  /** Only one sweeper moved. */
  lemma SweepStep(s: Cluster, s': Cluster)
    requires Inv(s) && s' == s.(sweeps := s'.sweeps) && SweepsOk(s')
    ensures Inv(s')
  {
    hide StableMachineName, HistOk, WorkerOk;
    assert forall k :: KeyOk(s, k) ==> KeyOk(s', k);
    assert forall m :: CurNamed(s', m) == CurNamed(s, m);
  }

  lemma SweepListInv(s: Cluster, s': Cluster, n: string, names: seq<string>)
    requires Inv(s) && (forall m :: m in names <==> Slot(n, m) in s.machines) && s' == s.(sweeps := s.sweeps[n := Listed(names)])
    ensures Inv(s')
  {
    hide KeyOk, StableMachineName, ControllerName;
    forall m | m in names && ControllerName(m) ensures ListedOk(s, n, m) {
      var slot := Slot(n, m);
      assert Sheltered(s, slot) || Abandoned(s, slot);
    }
    assert forall m :: CurNamed(s', m) == CurNamed(s, m);
    SweepStep(s, s');
  }

  /** After the VM list, the machines left to delete belong to no VM that is staying. */
  lemma OwnersCondemned(s: Cluster, n: string, names: seq<string>, vms: seq<SmolVM>, m: string)
    requires (forall k :: KeyOk(s, k)) && ListsAll(s, vms)
    requires forall x :: x in names && ControllerName(x) ==> ListedOk(s, n, x)
    requires m in Doomed(names, OwnedNames(vms, n))
    ensures CondemnedOk(s, m)
  {
    hide HistOk, WorkerOk, ControllerName, Doomed;
    assert ListedOk(s, n, m);
    if CurNamed(s, m).Some? {
      var k, vm := s.births[m].key, CurNamed(s, m).value;
      assert KeyOk(s, k);
      VersionOk(s, k, |Hist(s, k)| - 1);
      assert vm in vms;
      var i :| 0 <= i < |vms| && vms[i] == vm;
      assert Owns(vm, n) ==> m in OwnedNames(vms, n) by { OwnedName(s, k, vm, vms, n, i); }
      assert vm.status.machineName != "" by { NamedNonEmpty(vm, k, s.births); }
    }
  }

  lemma OwnedName(s: Cluster, k: Key, vm: SmolVM, vms: seq<SmolVM>, n: string, i: nat)
    requires VmOk(vm, k, s.births) && i < |vms| && vms[i] == vm
    ensures Owns(vm, n) ==> StableMachineName(vm) in OwnedNames(vms, n)
  {
    hide Coherent, StableMachineName;
  }

  lemma NamedNonEmpty(vm: SmolVM, k: Key, births: map<string, Birth>)
    requires VmOk(vm, k, births)
    ensures vm.Bound() ==> vm.status.machineName != ""
  {
    DistinctTagsDistinctNames(vm, vm);
    hide Coherent, StableMachineName;
  }

  lemma SweepOwnersInv(s: Cluster, s': Cluster, n: string, vms: seq<SmolVM>)
    requires Inv(s) && SweepOf(s, n).Listed? && ListsAll(s, vms)
    requires s' == s.(sweeps := s.sweeps[n := Condemned(Doomed(SweepOf(s, n).names, OwnedNames(vms, n)))])
    ensures Inv(s')
  {
    hide KeyOk, StableMachineName, ControllerName, Doomed, ListsAll, OwnedNames;
    var names := SweepOf(s, n).names;
    forall m | m in Doomed(names, OwnedNames(vms, n)) ensures CondemnedOk(s, m) {
      OwnersCondemned(s, n, names, vms, m);
    }
    assert forall m :: CurNamed(s', m) == CurNamed(s, m);
    SweepStep(s, s');
  }

  lemma SweepEndInv(s: Cluster, s': Cluster, n: string)
    requires Inv(s) && s' == s.(sweeps := s.sweeps[n := Resting])
    ensures Inv(s')
  {
    hide KeyOk, StableMachineName;
    assert forall m :: CurNamed(s', m) == CurNamed(s, m);
    SweepStep(s, s');
  }

  /** Machines vanish, stop, or appear under names that are not ours. */
  lemma WorldInv(s: Cluster, s': Cluster)
    requires Inv(s) && s' == s.(machines := s'.machines)
    requires forall slot :: slot in s'.machines && ControllerName(slot.machine) ==>
               slot in s.machines && s'.machines[slot].storageGB == s.machines[slot].storageGB
               && s'.machines[slot].overlayGB == s.machines[slot].overlayGB
    ensures Inv(s')
  {
    hide HistOk, WorkerOk, AbandonedOk, BirthsOk, SweepsOk, StableMachineName;
    forall k ensures KeyOk(s', k) {
      assert KeyOk(s, k);
      WorldWorker(s, k, s'.machines);
    }
    assert forall m :: CurNamed(s', m) == CurNamed(s, m);
    SameHistoryRest(s, s');
  }

  lemma WorldWorker(s: Cluster, k: Key, ms': map<Slot, MachineInfo>)
    requires KeyOk(s, k) && TameExcept(s.machines, ms', Slot("", ""))
    ensures WorkerOk(Hist(s, k), SeenOf(s, k), WorkerOf(s, k), ms', k, s.births)
  {
    hide HistOk, PlanFacts, PlanMachines, VmOk, StableMachineName, TameExcept;
    if WorkerOf(s, k).Planned? {
      NamedMachine(s, k);
    }
    WorkerTame(s, k, ms', Slot("", ""));
  }

  lemma SweepDeleteInv(s: Cluster, s': Cluster, n: string, effect: bool)
    requires Inv(s) && SweepOf(s, n).Condemned? && SweepOf(s, n).names != []
    requires s' == s.(sweeps := s.sweeps[n := Condemned(SweepOf(s, n).names[1..])],
                      machines := if effect then s.machines - {Slot(n, SweepOf(s, n).names[0])} else s.machines)
    ensures Inv(s')
  {
    hide KeyOk, StableMachineName;
    var names, mid := SweepOf(s, n).names, s.(machines := s'.machines);
    WorldInv(s, mid);
    assert forall m :: m in names[1..] ==> m in names;
    assert forall m :: CurNamed(s', m) == CurNamed(s, m);
    assert SweepsOk(s');
    SweepStep(mid, s');
  }
}
