/** The controller, the node agents' sweepers, the users and the runtimes as one state machine.

    Each SmolVM name has a log of committed versions; the index of a version is its resource
    version. The controller reads through a cache: a read may return any version at or after
    the last one it saw. A reconcile is a sequence of separate steps (fetch, look, call, second
    read, write), so everything else may happen between any two of them. Writes commit only
    from the current resource version. Runtime calls succeed, fail cleanly, or fail after
    taking effect. What the controller sees of nodes, heartbeats and other VMs while deciding
    is arbitrary. */
module Protocol {
  import opened Types
  import opened StatusWriter
  import opened Capacity
  import opened Decision
  import opened Sweeper

  datatype Key = Key(namespace: string, name: string)

  datatype Version = Gone | At(vm: SmolVM)

  datatype Slot = Slot(node: string, machine: string)

  /** The reconcile in progress for one key. `rv` is the version the copy in hand came from. */
  datatype Worker =
    | Idle
    | Fetched(vm: SmolVM, rv: nat)
    | Planned(vm: SmolVM, rv: nat, view: View, plan: Plan)
    | Drafted(vm: SmolVM, view: View, latest: SmolVM, rv: nat, status: Status)

  datatype Sweep = Resting | Listed(names: seq<string>) | Condemned(names: seq<string>)

  /** Recorded when a VM is created, under its machine name. */
  datatype Birth = Birth(key: Key, uid: string, pin: string)

  /** `births` and `abandoned` are history: the machine names handed out so far, and for VMs
      that left by force deletion the node their machine may remain on. */
  datatype Cluster = Cluster(
    store: map<Key, seq<Version>>, seen: map<Key, nat>, workers: map<Key, Worker>,
    machines: map<Slot, MachineInfo>, sweeps: map<string, Sweep>,
    births: map<string, Birth>, abandoned: map<string, string>)

  datatype Step =
    // one reconcile
    | Fetch(k: Key, rv: nat)
    | Look(k: Key, view: View)
    | Perform(k: Key, effect: bool, made: MachineInfo, outcome: CallOutcome)
    | Reread(k: Key, rv: nat, now: Time)
    | CommitStatus(k: Key)
    | CommitObject(k: Key)
    | GiveUp(k: Key)
    // users
    | UserCreate(k: Key, vm: SmolVM)
    | UserEdit(k: Key, spec: Spec, generation: int)
    | UserAnnotate(k: Key, annotations: map<string, string>)
    | UserDelete(k: Key, generation: int)
    // the sweeper of one node
    | SweepList(node: string, names: seq<string>)
    | SweepOwners(node: string, vms: seq<SmolVM>)
    | SweepDelete(node: string, effect: bool)
    | SweepEnd(node: string)
    // whatever else happens to machines
    | ForeignCreate(slot: Slot, made: MachineInfo)
    | MachineStops(slot: Slot)
    | MachineVanishes(slot: Slot)

  function Hist(s: Cluster, k: Key): seq<Version> { if k in s.store then s.store[k] else [] }

  function SeenOf(s: Cluster, k: Key): nat { if k in s.seen then s.seen[k] else 0 }

  function WorkerOf(s: Cluster, k: Key): Worker { if k in s.workers then s.workers[k] else Idle }

  function SweepOf(s: Cluster, n: string): Sweep { if n in s.sweeps then s.sweeps[n] else Resting }

  function Newest(h: seq<Version>): Version { if h == [] then Gone else h[|h| - 1] }

  function Cur(s: Cluster, k: Key): Version { Newest(Hist(s, k)) }

  function Append(s: Cluster, k: Key, v: Version): Cluster { s.(store := s.store[k := Hist(s, k) + [v]]) }

  function SetWorker(s: Cluster, k: Key, w: Worker): Cluster { s.(workers := s.workers[k := w]) }

  /** The runtime that really sits behind the endpoint is the one that gave the answers. */
  function Target(view: View): string {
    if view.answer.identity.Some? then view.answer.identity.value.nodeName else ""
  }

  predicate HonestView(s: Cluster, vm: SmolVM, view: View) {
    var slot := Slot(Target(view), MachineName(vm));
    && (view.got.Found? ==> slot in s.machines && s.machines[slot] == view.got.info)
    && (view.got.NotFound? ==> slot !in s.machines)
  }

  predicate HonestOutcome(effect: bool, made: MachineInfo, outcome: CallOutcome, call: RuntimeCall, present: bool) {
    && (outcome.CallOk? ==> effect && (call.Create? ==> made == outcome.info))
    && (outcome.CallNotFound? ==> !effect && !present)
  }

  function CallEffect(ms: map<Slot, MachineInfo>, slot: Slot, call: RuntimeCall, made: MachineInfo): map<Slot, MachineInfo> {
    match call
    case Create(_) => ms[slot := made]
    case Delete(_) => ms - {slot}
    case EnsureRunning(_) => if slot in ms then ms[slot := ms[slot].(state := "running")] else ms
    case Stop(_) => if slot in ms then ms[slot := ms[slot].(state := "stopped")] else ms
    case Resize(_, size) => if slot in ms then ms[slot := Resized(ms[slot], size)] else ms
  }

  function PlanOrIdle(vm: SmolVM, rv: nat, view: View, plan: Plan): Worker {
    if plan.Nothing? then Idle else Planned(vm, rv, view, plan)
  }

  function Tail10(m: string): string { if |m| < 10 then m else m[|m| - 10..] }

  /** What the API server admits: the CRD's minimums, its list keyed by host port, and its
      exactly-one-source rule. */
  predicate Admitted(spec: Spec) {
    NonNegative(spec) && HostPortsDistinct(spec.ports) && (spec.image != "") != (spec.from != "")
  }

  /** Digests of UIDs are distinct, UIDs are never reused, and status is not settable on create. */
  predicate Newborn(s: Cluster, k: Key, vm: SmolVM) {
    && Key(vm.namespace, vm.name) == k && vm.status == EMPTY_STATUS && !vm.deleting && Admitted(vm.spec)
    && |vm.tag| == 10
    && (forall m :: m in s.births ==> Tail10(m) != vm.tag && s.births[m].uid != vm.uid)
  }

  /** The sweeper's VM list is uncached, so it is the current set of VMs. */
  predicate ListsAll(s: Cluster, vms: seq<SmolVM>) {
    && (forall i :: 0 <= i < |vms| ==> exists k :: k in s.store && Cur(s, k) == At(vms[i]))
    && (forall k :: k in s.store && Cur(s, k).At? ==> Cur(s, k).vm in vms)
  }

  ghost predicate Enabled(s: Cluster, step: Step) {
    match step
    case Fetch(k, rv) => WorkerOf(s, k).Idle? && SeenOf(s, k) <= rv < |Hist(s, k)|
    case Look(k, view) => WorkerOf(s, k).Fetched? && HonestView(s, WorkerOf(s, k).vm, view)
    case Perform(k, effect, made, outcome) =>
      var w := WorkerOf(s, k);
      && w.Planned? && w.plan.Call?
      && HonestOutcome(effect, made, outcome, w.plan.call, Slot(Target(w.view), CallName(w.plan.call)) in s.machines)
    case Reread(k, rv, _) =>
      var w := WorkerOf(s, k);
      w.Planned? && w.plan.WriteStatus? && SeenOf(s, k) <= rv < |Hist(s, k)|
    case CommitStatus(k) => WorkerOf(s, k).Drafted?
    case CommitObject(k) =>
      var w := WorkerOf(s, k);
      w.Planned? && (w.plan.AddFinalizer? || w.plan.DropFinalizer?)
    case GiveUp(k) => true
    case UserCreate(k, vm) => Cur(s, k).Gone? && Newborn(s, k, vm)
    case UserEdit(k, spec, generation) =>
      && Cur(s, k).At? && Admitted(spec)
      && generation == Cur(s, k).vm.generation + (if spec == Cur(s, k).vm.spec then 0 else 1)
      && (Cur(s, k).vm.spec.nodeName != "" ==> spec.nodeName == Cur(s, k).vm.spec.nodeName)
    case UserAnnotate(k, _) => Cur(s, k).At?
    case UserDelete(k, generation) =>
      Cur(s, k).At? && generation == Cur(s, k).vm.generation + (if Cur(s, k).vm.deleting then 0 else 1)
    case SweepList(n, names) => SweepOf(s, n).Resting? && forall m :: m in names <==> Slot(n, m) in s.machines
    case SweepOwners(n, vms) => SweepOf(s, n).Listed? && ListsAll(s, vms)
    case SweepDelete(n, _) => SweepOf(s, n).Condemned? && SweepOf(s, n).names != []
    case SweepEnd(n) => true
    case ForeignCreate(slot, _) => !ControllerName(slot.machine)
    case MachineStops(slot) => slot in s.machines
    case MachineVanishes(slot) => true
  }

  function AfterFetch(s: Cluster, k: Key, rv: nat): Cluster
    requires rv < |Hist(s, k)|
  {
    SetWorker(s.(seen := s.seen[k := rv]), k, if Hist(s, k)[rv].Gone? then Idle else Fetched(Hist(s, k)[rv].vm, rv))
  }

  function AfterLook(s: Cluster, k: Key, view: View): Cluster
    requires WorkerOf(s, k).Fetched?
  {
    var w := WorkerOf(s, k);
    SetWorker(s, k, PlanOrIdle(w.vm, w.rv, view, Decide(w.vm, view)))
  }

  function AfterPerform(s: Cluster, k: Key, effect: bool, made: MachineInfo, outcome: CallOutcome): Cluster
    requires WorkerOf(s, k).Planned? && WorkerOf(s, k).plan.Call?
  {
    var w := WorkerOf(s, k);
    var slot := Slot(Target(w.view), CallName(w.plan.call));
    SetWorker(s.(machines := if effect then CallEffect(s.machines, slot, w.plan.call, made) else s.machines),
              k, PlanOrIdle(w.vm, w.rv, w.view, AfterCall(w.vm, w.plan.call, outcome)))
  }

  /** What the second read makes of a planned status write. */
  function RereadWorker(w: Worker, read: Version, rv: nat, now: Time): Worker
    requires w.Planned? && w.plan.WriteStatus?
  {
    match read
    case Gone => Idle
    case At(latest) =>
      var st := StatusAfter(latest.status, w.plan.input, latest.generation, now);
      if st == latest.status then Idle else Drafted(w.vm, w.view, latest, rv, st)
  }

  function AfterReread(s: Cluster, k: Key, rv: nat, now: Time): Cluster
    requires WorkerOf(s, k).Planned? && WorkerOf(s, k).plan.WriteStatus? && rv < |Hist(s, k)|
  {
    SetWorker(s.(seen := s.seen[k := rv]), k, RereadWorker(WorkerOf(s, k), Hist(s, k)[rv], rv, now))
  }

  /** The worker of `k` commits a version and is done. */
  function Committed(s: Cluster, k: Key, v: Version, abandoned: map<string, string>): Cluster {
    Append(SetWorker(s, k, Idle).(abandoned := abandoned), k, v)
  }

  function AfterCommitStatus(s: Cluster, k: Key): Cluster
    requires WorkerOf(s, k).Drafted?
  {
    var w := WorkerOf(s, k);
    if w.rv + 1 == |Hist(s, k)| then Committed(s, k, At(w.latest.(status := w.status)), s.abandoned)
    else SetWorker(s, k, Idle)
  }

  /** What dropping a finalizer by force leaves behind. */
  function AfterDrop(s: Cluster, vm: SmolVM, plan: Plan): map<string, string> {
    if plan == DropFinalizer(true) then s.abandoned[MachineName(vm) := vm.status.nodeName] else s.abandoned
  }

  function AfterCommitObject(s: Cluster, k: Key): Cluster
    requires WorkerOf(s, k).Planned?
  {
    var w := WorkerOf(s, k);
    if w.rv + 1 != |Hist(s, k)| then SetWorker(s, k, Idle)
    else if w.plan.AddFinalizer? then Committed(s, k, At(w.vm.(finalizer := true)), s.abandoned)
    else Committed(s, k, Gone, AfterDrop(s, w.vm, w.plan))
  }

  function Apply(s: Cluster, step: Step): Cluster
    requires Enabled(s, step)
  {
    match step
    case Fetch(k, rv) => AfterFetch(s, k, rv)
    case Look(k, view) => AfterLook(s, k, view)
    case Perform(k, effect, made, outcome) => AfterPerform(s, k, effect, made, outcome)
    case Reread(k, rv, now) => AfterReread(s, k, rv, now)
    case CommitStatus(k) => AfterCommitStatus(s, k)
    case CommitObject(k) => AfterCommitObject(s, k)
    case GiveUp(k) => SetWorker(s, k, Idle)
    case UserCreate(k, vm) =>
      Append(s.(births := s.births[StableMachineName(vm) := Birth(k, vm.uid, vm.spec.nodeName)]), k, At(vm))
    case UserEdit(k, spec, generation) => Append(s, k, At(Cur(s, k).vm.(spec := spec, generation := generation)))
    case UserAnnotate(k, annotations) => Append(s, k, At(Cur(s, k).vm.(annotations := annotations)))
    case UserDelete(k, generation) =>
      Append(s, k, if Cur(s, k).vm.finalizer then At(Cur(s, k).vm.(deleting := true, generation := generation)) else Gone)
    case SweepList(n, names) => s.(sweeps := s.sweeps[n := Listed(names)])
    case SweepOwners(n, vms) => s.(sweeps := s.sweeps[n := Condemned(Doomed(SweepOf(s, n).names, OwnedNames(vms, n)))])
    case SweepDelete(n, effect) =>
      var names := SweepOf(s, n).names;
      s.(sweeps := s.sweeps[n := Condemned(names[1..])],
         machines := if effect then s.machines - {Slot(n, names[0])} else s.machines)
    case SweepEnd(n) => s.(sweeps := s.sweeps[n := Resting])
    case ForeignCreate(slot, made) => s.(machines := s.machines[slot := made])
    case MachineStops(slot) => s.(machines := s.machines[slot := s.machines[slot].(state := "stopped")])
    case MachineVanishes(slot) => s.(machines := s.machines - {slot})
  }

  predicate Init(s: Cluster) {
    && s.store == map[] && s.seen == map[] && s.workers == map[] && s.sweeps == map[]
    && s.births == map[] && s.abandoned == map[]
    && forall slot :: slot in s.machines ==> !ControllerName(slot.machine)
  }

  /** A run: one more state than steps, each state the effect of an enabled step on the last. */
  ghost predicate IsRun(states: seq<Cluster>, steps: seq<Step>) {
    && |states| == |steps| + 1
    && Init(states[0])
    && forall i :: 0 <= i < |steps| ==> Enabled(states[i], steps[i]) && states[i + 1] == Apply(states[i], steps[i])
  }

  /** The hypothesis the code needs and does not enforce: the second read of a reconcile shows
      the binding the first one showed. */
  ghost predicate ReadsAgree(s: Cluster, step: Step) {
    step.Reread? && Enabled(s, step) && Hist(s, step.k)[step.rv].At? ==>
      Hist(s, step.k)[step.rv].vm.status.nodeName == WorkerOf(s, step.k).vm.status.nodeName
  }
}
