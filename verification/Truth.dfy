/** What a committed Reconciled=True means in a run: the machine really was as the spec asks, at the
    moment the reconcile that wrote it looked, and when that is also so for the generation the status
    is stamped with. */
module Truth {
  import opened Types
  import opened StatusWriter
  import opened Decision
  import opened Sweeper
  import opened Protocol
  import opened Safety
  import opened Runs
  import opened PortMatch
  import opened Capacity
  import opened Scheduler
  import opened Samples

  /** The reconcile in progress took this look at this VM earlier in the run. */
  ghost predicate Looked(states: seq<Cluster>, steps: seq<Step>, i: nat, k: Key, vm: SmolVM, view: View) {
    exists j :: 0 <= j < i && j < |steps| && j < |states| && LookedAt(states[j], steps[j], k, vm, view)
  }

  ghost predicate LookedAt(s: Cluster, step: Step, k: Key, vm: SmolVM, view: View) {
    step == Look(k, view) && Enabled(s, step) && WorkerOf(s, k).Fetched? && WorkerOf(s, k).vm == vm
  }

  /** What is in flight claims Reconciled=True only for what was seen, and calls only for what the spec
      asks. */
  ghost predicate Honest(w: Worker) {
    match w
    case Planned(vm, _, view, plan) =>
      && (WritesTrue(plan) ==> InDesiredState(vm, view) && plan.input.machine == Some(view.got.info))
      && (plan.Call? ==> AsSpecified(vm, view, plan.call))
    case Drafted(vm, view, latest, _, st) =>
      && (Says(st.conditions, "Reconciled", CondTrue) ==> InDesiredState(vm, view) && Mirrors(st, view.got.info))
      && st.observedGeneration == latest.generation
    case _ => true
  }

  predicate Under(w: Worker, vm: SmolVM, view: View) { (w.Planned? || w.Drafted?) && w.vm == vm && w.view == view }

  lemma LookHonest(s: Cluster, k: Key, view: View)
    requires Enabled(s, Look(k, view))
    ensures var w, w' := WorkerOf(s, k), WorkerOf(AfterLook(s, k, view), k);
            w.Fetched? && Honest(w') && (w'.Planned? ==> Under(w', w.vm, view)) && !w'.Drafted?
  {
    hide Decide, InDesiredState, HonestView, AsSpecified;
    DecidesTrue(WorkerOf(s, k).vm, view);
    DecidesAsSpecified(WorkerOf(s, k).vm, view);
  }

  lemma PerformHonest(s: Cluster, k: Key, effect: bool, made: MachineInfo, outcome: CallOutcome)
    requires WorkerOf(s, k).Planned? && WorkerOf(s, k).plan.Call?
    ensures var w, w' := WorkerOf(s, k), WorkerOf(AfterPerform(s, k, effect, made, outcome), k);
            Honest(w') && (w'.Planned? ==> Under(w', w.vm, w.view)) && !w'.Drafted?
  {
    hide AfterCall, CallEffect;
    CallNeverTrue(WorkerOf(s, k).vm, WorkerOf(s, k).plan.call, outcome);
  }

  lemma RereadHonest(s: Cluster, k: Key, rv: nat, now: Time)
    requires WorkerOf(s, k).Planned? && WorkerOf(s, k).plan.WriteStatus? && rv < |Hist(s, k)| && Honest(WorkerOf(s, k))
    ensures var w, w' := WorkerOf(s, k), WorkerOf(AfterReread(s, k, rv, now), k);
            Honest(w') && (w'.Drafted? ==> Under(w', w.vm, w.view)) && !w'.Planned?
  {
    hide StatusAfter, InDesiredState, Mirrors, SameObserved;
    if Hist(s, k)[rv].At? {
      var latest := Hist(s, k)[rv].vm;
      VerdictsAfter(latest.status, WorkerOf(s, k).plan.input, latest.generation, now);
      ObservedAfter(latest.status, WorkerOf(s, k).plan.input, latest.generation, now);
    }
  }

  predicate Rests(w: Worker) { w.Idle? || w.Fetched? }

  lemma CommittedRests(s: Cluster, k': Key, v: Version, abandoned: map<string, string>, k: Key)
    ensures WorkerOf(Committed(s, k', v, abandoned), k) == (if k == k' then Idle else WorkerOf(s, k))
  {
  }

  lemma StatusRests(s: Cluster, k': Key, k: Key)
    requires WorkerOf(s, k').Drafted?
    ensures var w' := WorkerOf(AfterCommitStatus(s, k'), k); w' == WorkerOf(s, k) || Rests(w')
  {
    hide Committed, Hist;
    var w := WorkerOf(s, k');
    CommittedRests(s, k', At(w.latest.(status := w.status)), s.abandoned, k);
  }

  lemma ObjectRests(s: Cluster, k': Key, k: Key)
    requires WorkerOf(s, k').Planned?
    ensures var w' := WorkerOf(AfterCommitObject(s, k'), k); w' == WorkerOf(s, k) || Rests(w')
  {
    hide Committed, Hist, AfterDrop;
    var w := WorkerOf(s, k');
    CommittedRests(s, k', At(w.vm.(finalizer := true)), s.abandoned, k);
    CommittedRests(s, k', Gone, AfterDrop(s, w.vm, w.plan), k);
  }

  lemma OtherWorkers(s: Cluster, step: Step, k: Key)
    requires Enabled(s, step) && (step.Fetch? || step.Look? || step.Perform? || step.Reread?)
    ensures var w' := WorkerOf(Apply(s, step), k);
            w' == WorkerOf(s, k) || (!step.Fetch? && step.k == k) || Rests(w')
  {
    hide Decide, AfterCall, CallEffect, RereadWorker, Hist, HonestView, HonestOutcome;
  }

  /** A step leaves a worker alone, ends or starts it, or is that worker's own. */
  lemma OthersLeave(s: Cluster, step: Step, k: Key)
    requires Enabled(s, step)
    ensures var w' := WorkerOf(Apply(s, step), k);
            w' == WorkerOf(s, k) || Rests(w') || ((step.Look? || step.Perform? || step.Reread?) && step.k == k)
  {
    hide AfterFetch, AfterLook, AfterPerform, AfterReread, AfterCommitStatus, AfterCommitObject, Hist, Newborn, Admitted,
      ListsAll, HonestView, HonestOutcome, StableMachineName, Doomed, OwnedNames;
    if step.CommitStatus? {
      StatusRests(s, step.k, k);
    } else if step.CommitObject? {
      ObjectRests(s, step.k, k);
    } else if step.Fetch? || step.Look? || step.Perform? || step.Reread? {
      OtherWorkers(s, step, k);
    }
  }

  /** One step of the induction over a run. */
  lemma StepHonest(s: Cluster, step: Step, k: Key)
    requires Enabled(s, step) && Honest(WorkerOf(s, k))
    ensures var w, w' := WorkerOf(s, k), WorkerOf(Apply(s, step), k);
            && Honest(w')
            && (w'.Planned? || w'.Drafted? ==> Under(w, w'.vm, w'.view) || LookedAt(s, step, k, w'.vm, w'.view))
  {
    OthersLeave(s, step, k);
    if (step.Look? || step.Perform? || step.Reread?) && step.k == k {
      OwnHonest(s, step, k);
    }
    hide Enabled, Apply, InDesiredState;
  }

  lemma OwnHonest(s: Cluster, step: Step, k: Key)
    requires Enabled(s, step) && Honest(WorkerOf(s, k)) && (step.Look? || step.Perform? || step.Reread?) && step.k == k
    ensures var w, w' := WorkerOf(s, k), WorkerOf(Apply(s, step), k);
            && Honest(w')
            && (w'.Planned? || w'.Drafted? ==> Under(w, w'.vm, w'.view) || LookedAt(s, step, k, w'.vm, w'.view))
  {
    hide Honest, AfterLook, AfterPerform, AfterReread, HonestView, HonestOutcome;
    match step
    case Look(_, view) => LookHonest(s, k, view);
    case Perform(_, effect, made, outcome) => PerformHonest(s, k, effect, made, outcome);
    case Reread(_, rv, now) => RereadHonest(s, k, rv, now);
  }

  lemma {:induction false} RunHonest(states: seq<Cluster>, steps: seq<Step>, i: nat, k: Key)
    requires IsRun(states, steps) && i < |states|
    ensures var w := WorkerOf(states[i], k);
            Honest(w) && (w.Planned? || w.Drafted? ==> Looked(states, steps, i, k, w.vm, w.view))
  {
    hide Enabled, Apply, Honest, LookedAt;
    if i == 0 {
      NoWorker(states[0], k);
    } else {
      RunHonest(states, steps, i - 1, k);
      StepHonest(states[i - 1], steps[i - 1], k);
    }
  }

  lemma NoWorker(s: Cluster, k: Key)
    requires Init(s)
    ensures WorkerOf(s, k).Idle? && Honest(WorkerOf(s, k))
  {
  }

  /** Every call a run performs asks the runtime for what the spec its reconcile read asks: a created
      machine with the spec's image or source, sizes, ports, network and ranges; a resize to the
      spec's disks; a start only where the spec says running and the machine read was not, a stop
      the other way round; a delete only for a VM being deleted. */
  lemma CallsAsSpecified(states: seq<Cluster>, steps: seq<Step>, i: nat, k: Key)
    requires IsRun(states, steps) && i < |steps| && steps[i].Perform? && steps[i].k == k
    ensures var w := WorkerOf(states[i], k);
            w.Planned? && w.plan.Call? && AsSpecified(w.vm, w.view, w.plan.call) && Looked(states, steps, i, k, w.vm, w.view)
  {
    RunHonest(states, steps, i, k);
    hide Init, Apply, AsSpecified, LookedAt, InDesiredState, WritesTrue;
    assert Enabled(states[i], steps[i]);
    PerformPlanned(states[i], steps[i]);
    hide Enabled;
  }

  /** Every time a run commits Reconciled=True, the reconcile that does so looked earlier in the
      run at a live, valid, bound VM, and at that moment the machine on its node was as the spec it
      had read asks (run state, ports, and CPU, memory and disks wherever both sides state them)
      and as the status shows it, process, network, ports and disks. The status carries the
      generation of the second read. The reads need not agree. */
  lemma ReconciledTruthful(states: seq<Cluster>, steps: seq<Step>, i: nat, k: Key)
    requires IsRun(states, steps) && i < |steps| && steps[i] == CommitStatus(k)
    requires WorkerOf(states[i], k).Drafted? && Says(WorkerOf(states[i], k).status.conditions, "Reconciled", CondTrue)
    ensures var w := WorkerOf(states[i], k);
            && !w.vm.deleting && w.vm.finalizer && SpecProblem(w.vm).None? && w.vm.Bound()
            && w.status.observedGeneration == w.latest.generation
            && exists j :: 0 <= j < i && ShownAt(states[j], w.vm, w.status)
  {
    hide Enabled, Apply, LookedAt, InDesiredState, Mirrors, ShownAt;
    RunHonest(states, steps, i, k);
    var w := WorkerOf(states[i], k);
    var j :| 0 <= j < i && LookedAt(states[j], steps[j], k, w.vm, w.view);
    SeenTrue(states[j], steps[j], k, w.vm, w.view, w.status);
  }

  /** So the disk sizes in such a status are the spec's, wherever the spec asks and the runtime
      reports, and its ports are the spec's up to order. */
  lemma ShownAsAsked(spec: Spec, st: Status, m: MachineInfo)
    requires Matches(spec, m) && Mirrors(st, m)
    ensures spec.storageGiB > 0 && st.storageGiB.Some? ==> st.storageGiB.value == spec.storageGiB
    ensures spec.overlayGiB > 0 && st.overlayGiB.Some? ==> st.overlayGiB.value == spec.overlayGiB
    ensures multiset(st.ports) == multiset(spec.ports)
  {
    assert SpecPairs(st.ports) == RuntimePairs(m.ports);
    PairsTell(st.ports, spec.ports);
  }

  /** Lists with the same pairs have the same ports, each equally often. */
  lemma PairsTell(a: seq<VMPort>, b: seq<VMPort>)
    requires multiset(SpecPairs(a)) == multiset(SpecPairs(b))
    ensures multiset(a) == multiset(b)
  {
    forall p ensures multiset(a)[p] == multiset(b)[p] {
      PairCount(a, p);
      PairCount(b, p);
    }
  }

  lemma {:induction false} PairCount(ports: seq<VMPort>, p: VMPort)
    ensures multiset(ports)[p] == multiset(SpecPairs(ports))[(p.hostPort as int, p.guestPort as int)]
  {
    if ports != [] {
      var l := |ports| - 1;
      PairCount(ports[..l], p);
      assert ports == ports[..l] + [ports[l]];
      assert SpecPairs(ports) == SpecPairs(ports[..l]) + [(ports[l].hostPort as int, ports[l].guestPort as int)];
    }
  }

  /** The VM's machine, on the node it is bound to, is as its spec asks. */
  predicate TrueAt(s: Cluster, vm: SmolVM) {
    && Home(vm) in s.machines
    && Matches(vm.spec, s.machines[Home(vm)])
  }

  /** It is so, and as the status shows it. */
  predicate ShownAt(s: Cluster, vm: SmolVM, st: Status) {
    TrueAt(s, vm) && Mirrors(st, s.machines[Home(vm)])
  }

  lemma SeenTrue(s: Cluster, step: Step, k: Key, vm: SmolVM, view: View, st: Status)
    requires LookedAt(s, step, k, vm, view) && InDesiredState(vm, view) && Mirrors(st, view.got.info)
    ensures ShownAt(s, vm, st)
    ensures !vm.deleting && vm.finalizer && SpecProblem(vm).None? && vm.Bound()
  {
    UsableIff(vm.status.nodeName, view);
    hide RuntimeProblem, SpecProblem, Matches, MachineName, Mirrors;
  }

  // ---- The generation the status is stamped with ------------------------------------

  /** Where both reads showed one generation, what is committed is true of the very spec whose
      generation the status carries. */
  lemma GenerationTruthful(states: seq<Cluster>, steps: seq<Step>, i: nat, k: Key)
    requires GoodRun(states, steps) && i < |steps| && steps[i] == CommitStatus(k)
    requires WorkerOf(states[i], k).Drafted? && Says(WorkerOf(states[i], k).status.conditions, "Reconciled", CondTrue)
    requires WorkerOf(states[i], k).latest.generation == WorkerOf(states[i], k).vm.generation
    ensures var latest := WorkerOf(states[i], k).latest;
            latest.spec == WorkerOf(states[i], k).vm.spec && exists j :: 0 <= j < i && TrueAt(states[j], latest)
  {
    hide Enabled, Apply, TrueAt, Inv, ReadsAgree, SpecProblem;
    RunInv(states, steps, i);
    ReconciledTruthful(states, steps, i, k);
    var w := WorkerOf(states[i], k);
    var j :| 0 <= j < i && ShownAt(states[j], w.vm, w.status);
    DraftedSame(states[i], k);
    SameTruth(states[j], w.vm, w.latest);
  }

  lemma DraftedSame(s: Cluster, k: Key)
    requires Inv(s) && WorkerOf(s, k).Drafted?
    ensures var w := WorkerOf(s, k);
            && Newer(w.vm, w.latest) && w.latest.status.nodeName == w.vm.status.nodeName
            && (w.vm.Bound() ==> MachineName(w.latest) == MachineName(w.vm))
  {
    hide Inv, HistOk, VmOk, Newer, StableMachineName, Schedule, SpecProblem, Admitted;
    InvKey(s, k);
  }

  lemma SameTruth(s: Cluster, a: SmolVM, b: SmolVM)
    requires TrueAt(s, a) && b.spec == a.spec && b.status.nodeName == a.status.nodeName && MachineName(b) == MachineName(a)
    ensures TrueAt(s, b)
  {
    hide Matches, MachineName;
  }

  /** Every wish of `b` that is compared with a machine is one `a` has. */
  predicate NoNewWish(a: Spec, b: Spec) {
    && b.running == a.running && multiset(SpecPairs(b.ports)) == multiset(SpecPairs(a.ports))
    && b.cpus in [0, a.cpus] && b.memoryMiB in [0, a.memoryMiB]
    && b.storageGiB in [0, a.storageGiB] && b.overlayGiB in [0, a.overlayGiB]
  }

  /** Whatever machine a reconcile of `vm` saw before writing Reconciled=True, it is as this spec asks
      (it writes that only after having seen one). */
  ghost predicate TrueOf(vm: SmolVM, spec: Spec) {
    forall view: View, outcome: CallOutcome | view.got.Found? && WritesTrue(Final(vm, view, outcome)) :: Matches(spec, view.got.info)
  }

  /** Reconciled=True, decided for the first version read, is true of another version whatever
      machine was seen, exactly when that version has no compared wish the first did not have, or
      the first takes a branch that never reports. */
  lemma StampExactly(vm: SmolVM, spec: Spec)
    requires NonNegative(vm.spec) && NonNegative(spec)
    ensures TrueOf(vm, spec) <==>
            NoNewWish(vm.spec, spec) || vm.deleting || !vm.finalizer || SpecProblem(vm).Some? || !vm.Bound()
  {
    hide Final, Matches, NoNewWish, SpecProblem, RuntimeProblem, WritesTrue;
    forall view, outcome ensures WritesTrue(Final(vm, view, outcome)) <==> InDesiredState(vm, view) {
      ReconciledSound(vm, view, outcome);
    }
    if NoNewWish(vm.spec, spec) {
      forall view: View, outcome: CallOutcome | view.got.Found? && WritesTrue(Final(vm, view, outcome)) ensures Matches(spec, view.got.info) {
        WishesCarry(vm.spec, spec, view.got.info);
      }
    } else if !vm.deleting && vm.finalizer && SpecProblem(vm).None? && vm.Bound() {
      var m := Witness(vm.spec, spec);
      var view := Lone(vm.status.nodeName, map[]).(got := Found(m));
      WitnessDiffers(vm.spec, spec);
      LoneFound(vm.status.nodeName, m);
      assert InDesiredState(vm, view);
      assert WritesTrue(Final(vm, view, CallNotFound));
    }
  }

  lemma LoneFound(n: string, m: MachineInfo)
    ensures RuntimeProblem(n, Lone(n, map[]).(got := Found(m))).None?
  {
    LoneUsable(n, map[]);
    hide Eligible, FindNode, Lone;
  }

  lemma WishesCarry(a: Spec, b: Spec, m: MachineInfo)
    requires NoNewWish(a, b) && Matches(a, m) && NonNegative(a) && NonNegative(b)
    ensures Matches(b, m)
  {
  }

  /** A machine as `a` asks, and where `a` leaves a size open, not as `b` asks. */
  function Witness(a: Spec, b: Spec): MachineInfo {
    MachineInfo("", if a.running then "running" else "stopped",
                if a.cpus > 0 then a.cpus else if b.cpus == 1 then 2 else 1,
                if a.memoryMiB > 0 then a.memoryMiB else if b.memoryMiB == 1 then 2 else 1,
                None, CreatePorts(a.ports), false,
                Some(if a.storageGiB > 0 then a.storageGiB else 0), Some(if a.overlayGiB > 0 then a.overlayGiB else 0))
  }

  lemma WitnessDiffers(a: Spec, b: Spec)
    requires NonNegative(a) && NonNegative(b)
    ensures Matches(a, Witness(a, b))
    ensures Matches(b, Witness(a, b)) ==> NoNewWish(a, b)
  {
    assert SpecPairs(a.ports) == RuntimePairs(CreatePorts(a.ports));
    hide SpecPairs, RuntimePairs, CreatePorts;
  }
}
