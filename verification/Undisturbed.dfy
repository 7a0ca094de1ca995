/** Reconciles that nothing interrupts, as steps of the protocol: each has the effect of one round of
    the sequential argument, so a cluster left alone settles every VM in at most five of them. */
module Undisturbed {
  import opened Types
  import opened StatusWriter
  import opened Scheduler
  import opened Decision
  import opened Protocol
  import opened Safety
  import opened Runs
  import opened Convergence

  /** A stretch of a run, from one state to another, whose reads agree. */
  ghost predicate Stretch(states: seq<Cluster>, steps: seq<Step>, s: Cluster, s': Cluster) {
    && |states| == |steps| + 1 && states[0] == s && states[|steps|] == s'
    && forall i :: 0 <= i < |steps| ==>
         Enabled(states[i], steps[i]) && ReadsAgree(states[i], steps[i]) && states[i + 1] == Apply(states[i], steps[i])
  }

  /** Such a stretch exists. */
  ghost predicate Leads(s: Cluster, s': Cluster) {
    exists states, steps :: Stretch(states, steps, s, s')
  }

  lemma LeadsSelf(s: Cluster)
    ensures Leads(s, s)
  {
    assert Stretch([s], [], s, s);
  }

  lemma LeadsStep(s: Cluster, s': Cluster, step: Step)
    requires Leads(s, s') && Enabled(s', step) && ReadsAgree(s', step)
    ensures Leads(s, Apply(s', step))
  {
    hide Enabled, Apply, ReadsAgree;
    var states, steps :| Stretch(states, steps, s, s');
    assert Stretch(states + [Apply(s', step)], steps + [step], s, Apply(s', step));
  }

  lemma LeadsTrans(a: Cluster, b: Cluster, c: Cluster)
    requires Leads(a, b) && Leads(b, c)
    ensures Leads(a, c)
  {
    hide Enabled, Apply, ReadsAgree;
    var states, steps :| Stretch(states, steps, a, b);
    var states', steps' :| Stretch(states', steps', b, c);
    assert Stretch(states + states'[1..], steps + steps', a, c);
  }

  /** The stretch continues any run with agreeing reads. */
  lemma LeadsRun(states: seq<Cluster>, steps: seq<Step>, s': Cluster) returns (states': seq<Cluster>, steps': seq<Step>)
    requires GoodRun(states, steps) && Leads(states[|steps|], s')
    ensures GoodRun(states', steps') && states <= states' && steps <= steps' && states'[|steps'|] == s'
  {
    hide Enabled, Apply, ReadsAgree, Init;
    var more, next :| Stretch(more, next, states[|steps|], s');
    states', steps' := states + more[1..], steps + next;
  }

  lemma LeadsInv(s: Cluster, s': Cluster)
    requires Inv(s) && Leads(s, s')
    ensures Inv(s')
  {
    hide Inv, Enabled, Apply, ReadsAgree;
    var states, steps :| Stretch(states, steps, s, s');
    StretchInv(states, steps, s, s', |steps|);
  }

  lemma {:induction false} StretchInv(states: seq<Cluster>, steps: seq<Step>, s: Cluster, s': Cluster, i: nat)
    requires Inv(s) && Stretch(states, steps, s, s') && i <= |steps|
    ensures Inv(states[i])
  {
    hide Inv, Enabled, Apply, ReadsAgree;
    if i > 0 {
      StretchInv(states, steps, s, s', i - 1);
      StepInv(states[i - 1], steps[i - 1]);
    }
  }

  // ---- The cluster as a world -------------------------------------------------------

  /** What the cluster holds of one VM: its newest version and its machines, by node. */
  ghost predicate Holds(s: Cluster, k: Key, w: World) {
    && Cur(s, k) == At(w.vm)
    && forall n :: (n in w.machines <==> Slot(n, MachineName(w.vm)) in s.machines)
                   && (n in w.machines ==> w.machines[n] == s.machines[Slot(n, MachineName(w.vm))])
  }

  function WorldOf(s: Cluster, k: Key): World
    requires Cur(s, k).At?
  {
    var vm := Cur(s, k).vm;
    World(vm, map slot | slot in s.machines && slot.machine == MachineName(vm) :: slot.node := s.machines[slot])
  }

  lemma HoldsWorld(s: Cluster, k: Key)
    requires Cur(s, k).At?
    ensures Holds(s, k, WorldOf(s, k))
  {
    hide MachineName, Cur;
    var w := WorldOf(s, k);
    forall n | Slot(n, MachineName(w.vm)) in s.machines ensures n in w.machines {
      assert Slot(n, MachineName(w.vm)).node == n;
    }
  }

  /** Nothing is in progress for the VM. */
  ghost predicate Resting(s: Cluster, k: Key) { WorkerOf(s, k).Idle? }

  // ---- The steps of one reconcile ---------------------------------------------------

  /** The reconcile has read the newest version and holds this plan. */
  ghost predicate Holding(s: Cluster, k: Key, vm: SmolVM, view: View, plan: Plan) {
    && Cur(s, k) == At(vm) && SeenOf(s, k) == |Hist(s, k)| - 1
    && WorkerOf(s, k) == PlanOrIdle(vm, |Hist(s, k)| - 1, view, plan)
  }

  lemma LookSteps(s: Cluster, k: Key, view: View) returns (s': Cluster)
    requires Resting(s, k) && Cur(s, k).At? && SeenOf(s, k) < |Hist(s, k)| && HonestView(s, Cur(s, k).vm, view)
    ensures Leads(s, s') && Holding(s', k, Cur(s, k).vm, view, Decide(Cur(s, k).vm, view))
    ensures s'.machines == s.machines && s'.abandoned == s.abandoned && s'.births == s.births
  {
    hide Decide, Leads, HonestView;
    var rv := |Hist(s, k)| - 1;
    var s1 := AfterFetch(s, k, rv);
    LeadsSelf(s);
    FetchEnabled(s, k, rv);
    LeadsStep(s, s, Fetch(k, rv));
    assert HonestView(s1, Cur(s, k).vm, view) by { SameView(s, s1, Cur(s, k).vm, view); }
    LeadsStep(s, s1, Look(k, view));
    s' := AfterLook(s1, k, view);
  }

  lemma FetchEnabled(s: Cluster, k: Key, rv: nat)
    requires Resting(s, k) && Cur(s, k).At? && SeenOf(s, k) < |Hist(s, k)| && rv == |Hist(s, k)| - 1
    ensures Enabled(s, Fetch(k, rv)) && Apply(s, Fetch(k, rv)) == AfterFetch(s, k, rv)
    ensures WorkerOf(AfterFetch(s, k, rv), k) == Fetched(Cur(s, k).vm, rv)
  {
  }

  lemma SameView(s: Cluster, s': Cluster, vm: SmolVM, view: View)
    requires s'.machines == s.machines && HonestView(s, vm, view)
    ensures HonestView(s', vm, view)
  {
  }

  /** What the second read and the write leave, when the second read is the newest version again. */
  lemma WriteSteps(s: Cluster, k: Key, vm: SmolVM, view: View, input: StatusInput, now: Time) returns (s': Cluster)
    requires Holding(s, k, vm, view, WriteStatus(input))
    ensures Leads(s, s') && Resting(s', k) && s'.machines == s.machines && SeenOf(s', k) < |Hist(s', k)|
    ensures Cur(s', k) == At(vm.(status := StatusAfter(vm.status, input, vm.generation, now)))
  {
    hide Leads, StatusAfter;
    var rv := |Hist(s, k)| - 1;
    var s1 := AfterReread(s, k, rv, now);
    LeadsSelf(s);
    LeadsStep(s, s, Reread(k, rv, now));
    if WorkerOf(s1, k).Idle? {
      s' := s1;
    } else {
      LeadsStep(s, s1, CommitStatus(k));
      s' := AfterCommitStatus(s1, k);
      CommittedNow(s1, k, At(vm.(status := WorkerOf(s1, k).status)), s1.abandoned);
    }
  }

  lemma CommittedNow(s: Cluster, k: Key, v: Version, abandoned: map<string, string>)
    ensures var s' := Committed(s, k, v, abandoned);
            && Cur(s', k) == v && Resting(s', k) && s'.machines == s.machines && s'.births == s.births
            && SeenOf(s', k) == SeenOf(s, k) && |Hist(s', k)| == |Hist(s, k)| + 1
  {
  }

  lemma AddSteps(s: Cluster, k: Key, vm: SmolVM, view: View) returns (s': Cluster)
    requires Holding(s, k, vm, view, AddFinalizer)
    ensures Leads(s, s') && Resting(s', k) && s'.machines == s.machines && SeenOf(s', k) < |Hist(s', k)|
    ensures Cur(s', k) == At(vm.(finalizer := true))
  {
    hide Leads;
    LeadsSelf(s);
    LeadsStep(s, s, CommitObject(k));
    s' := AfterCommitObject(s, k);
    CommittedNow(s, k, At(vm.(finalizer := true)), s.abandoned);
  }

  lemma DropSteps(s: Cluster, k: Key, vm: SmolVM, view: View) returns (s': Cluster)
    requires Holding(s, k, vm, view, DropFinalizer(false))
    ensures Leads(s, s') && Resting(s', k) && s'.machines == s.machines && s'.abandoned == s.abandoned && s'.births == s.births
    ensures Cur(s', k).Gone?
  {
    hide Leads;
    LeadsSelf(s);
    LeadsStep(s, s, CommitObject(k));
    s' := AfterCommitObject(s, k);
    CommittedNow(s, k, Gone, s.abandoned);
  }

  /** A call that takes effect and is answered. */
  lemma CallSteps(s: Cluster, k: Key, vm: SmolVM, view: View, call: RuntimeCall, info: MachineInfo) returns (s': Cluster)
    requires Holding(s, k, vm, view, Call(call))
    ensures Leads(s, s') && Holding(s', k, vm, view, AfterCall(vm, call, CallOk(info)))
    ensures s'.machines == CallEffect(s.machines, Slot(Target(view), CallName(call)), call, info)
    ensures s'.abandoned == s.abandoned && s'.births == s.births
  {
    hide Leads, AfterCall, CallEffect;
    LeadsSelf(s);
    LeadsStep(s, s, Perform(k, true, info, CallOk(info)));
    s' := AfterPerform(s, k, true, info, CallOk(info));
  }

  // ---- One reconcile is one round ---------------------------------------------------

  /** The view of a round; for an unbound VM no machine is read. */
  function LookOf(w: World, e: Scene): View {
    if w.vm.Bound() then ViewOf(w, e) else ViewOf(w, e).(got := GetFailed(""))
  }

  lemma SamePlan(w: World, e: Scene)
    requires !w.vm.deleting
    ensures Decide(w.vm, LookOf(w, e)) == Decide(w.vm, ViewOf(w, e))
  {
    hide SpecProblem, Schedule, RuntimeProblem, DecideMachine, Unplaced, Binding;
  }

  lemma FairLook(s: Cluster, k: Key, w: World, e: Scene)
    requires Holds(s, k, w) && Fair(w, e)
    ensures HonestView(s, w.vm, LookOf(w, e)) && (w.vm.Bound() ==> Target(LookOf(w, e)) == w.vm.status.nodeName)
  {
    if w.vm.Bound() {
      UsableIff(w.vm.status.nodeName, ViewOf(w, e));
    }
    hide RuntimeProblem, Schedule, MachineName, Eligible;
  }

  lemma EffectIsObey(s: Cluster, k: Key, w: World, e: Scene, call: RuntimeCall, info: MachineInfo)
    requires Holds(s, k, w) && CallName(call) == MachineName(w.vm)
    requires call.Create? ==> info == Echo(call.req, e.state, e.pid)
    ensures var n := w.vm.status.nodeName;
            var ms := CallEffect(s.machines, Slot(n, MachineName(w.vm)), call, info);
            var obeyed := Obey(w.machines, n, call, e);
            forall n' :: (n' in obeyed <==> Slot(n', MachineName(w.vm)) in ms)
                         && (n' in obeyed ==> obeyed[n'] == ms[Slot(n', MachineName(w.vm))])
  {
    hide MachineName, Cur, Echo, Resized;
  }

  /** What the plan of a live VM can be, given that it may proceed. */
  lemma PlanKinds(w: World, e: Scene)
    requires Valid(w) && Fair(w, e)
    ensures var plan := Decide(w.vm, ViewOf(w, e));
            && !plan.Nothing? && !plan.DropFinalizer?
            && (plan.Call? ==> w.vm.Bound() && CallName(plan.call) == MachineName(w.vm) && !plan.call.Delete?)
            && (plan.WriteStatus? ==> plan.input.machineName == MachineName(w.vm))
  {
    DecideFacts(w.vm, ViewOf(w, e));
    hide RuntimeProblem, SpecProblem, Schedule, Drifted, Shrinks, Expands, ResizeRequestFor, CreateRequestFor, InputCoherent, MachineName;
  }

  lemma CallKinds(w: World, e: Scene)
    requires Valid(w) && Fair(w, e) && Decide(w.vm, ViewOf(w, e)).Call?
    ensures var after := AfterCall(w.vm, Decide(w.vm, ViewOf(w, e)).call, Answered(w, e));
            after.Nothing? || (after.WriteStatus? && after.input.machineName == MachineName(w.vm))
  {
    PlanKinds(w, e);
    hide Decide, Echo, PhaseOf, Fair, Valid, MachineName;
  }

  /** The machine name is settled: writing a status keeps it. */
  lemma KeepsName(vm: SmolVM, input: StatusInput, now: Time)
    requires input.machineName == MachineName(vm)
    ensures MachineName(vm.(status := StatusAfter(vm.status, input, vm.generation, now))) == MachineName(vm)
  {
    DistinctTagsDistinctNames(vm, vm);
    hide Settings, SetAll;
  }

  lemma Reholds(s: Cluster, k: Key, w: World, vm: SmolVM, ms: map<string, MachineInfo>)
    requires Cur(s, k) == At(vm) && MachineName(vm) == MachineName(w.vm)
    requires forall n :: (n in ms <==> Slot(n, MachineName(w.vm)) in s.machines)
                         && (n in ms ==> ms[n] == s.machines[Slot(n, MachineName(w.vm))])
    ensures Holds(s, k, World(vm, ms))
  {
    hide MachineName, Cur;
  }

  /** One uninterrupted reconcile takes the protocol from any state that holds a world to one that
      holds the world after one round. */
  lemma RoundSteps(s: Cluster, k: Key, w: World, e: Scene) returns (s': Cluster)
    requires Holds(s, k, w) && Resting(s, k) && SeenOf(s, k) < |Hist(s, k)| && Valid(w) && Fair(w, e)
    ensures Leads(s, s') && Holds(s', k, Round(w, e)) && Resting(s', k) && SeenOf(s', k) < |Hist(s', k)|
  {
    hide Leads, Holding, Decide, AfterCall, CallEffect, Obey, Fair, Valid, ViewOf, LookOf, StatusAfter, MachineName, Answered, HonestView, Target, Hist;
    var view, plan := LookOf(w, e), Decide(w.vm, ViewOf(w, e));
    FairLook(s, k, w, e);
    SamePlan(w, e) by { assert !w.vm.deleting by { Lives(w); } }
    PlanKinds(w, e);
    s' := LookSteps(s, k, view);
    var s1 := s';
    Reholds(s1, k, w, w.vm, w.machines) by { assert Cur(s1, k) == At(w.vm) by { HoldingCur(s1, k, w.vm, view, plan); } }
    if plan.Call? {
      CallKinds(w, e);
      s' := CallRound(s1, k, w, e, view, plan.call);
    } else {
      s' := PlainRound(s1, k, w, e, view, plan);
    }
    LeadsTrans(s, s1, s');
  }

  lemma Lives(w: World)
    requires Valid(w)
    ensures !w.vm.deleting
  {
    hide SpecProblem;
  }

  lemma HoldingCur(s: Cluster, k: Key, vm: SmolVM, view: View, plan: Plan)
    requires Holding(s, k, vm, view, plan)
    ensures Cur(s, k) == At(vm) && (plan.Nothing? ==> Resting(s, k)) && SeenOf(s, k) < |Hist(s, k)|
  {
  }

  lemma PlainRound(s: Cluster, k: Key, w: World, e: Scene, view: View, plan: Plan) returns (s': Cluster)
    requires Holds(s, k, w) && Holding(s, k, w.vm, view, plan) && plan == Decide(w.vm, ViewOf(w, e))
    requires plan.AddFinalizer? || (plan.WriteStatus? && plan.input.machineName == MachineName(w.vm))
    ensures Leads(s, s') && Holds(s', k, Round(w, e)) && Resting(s', k) && SeenOf(s', k) < |Hist(s', k)|
  {
    hide Leads, Holding, Decide, AfterCall, StatusAfter, MachineName, Hist, ViewOf, Answered;
    if plan.AddFinalizer? {
      s' := AddSteps(s, k, w.vm, view);
      SameNamed(w.vm, w.vm.(finalizer := true));
    } else {
      s' := WriteSteps(s, k, w.vm, view, plan.input, e.now);
      KeepsName(w.vm, plan.input, e.now);
    }
    Reholds(s', k, w, Round(w, e).vm, w.machines);
  }

  lemma SameNamed(a: SmolVM, b: SmolVM)
    requires b == a.(finalizer := b.finalizer)
    ensures MachineName(b) == MachineName(a)
  {
  }

  lemma CallRound(s: Cluster, k: Key, w: World, e: Scene, view: View, call: RuntimeCall) returns (s': Cluster)
    requires Holds(s, k, w) && Holding(s, k, w.vm, view, Call(call)) && Decide(w.vm, ViewOf(w, e)) == Call(call)
    requires Target(view) == w.vm.status.nodeName && CallName(call) == MachineName(w.vm)
    requires var after := AfterCall(w.vm, call, Answered(w, e));
             after.Nothing? || (after.WriteStatus? && after.input.machineName == MachineName(w.vm))
    ensures Leads(s, s') && Holds(s', k, Round(w, e)) && Resting(s', k) && SeenOf(s', k) < |Hist(s', k)|
  {
    hide Leads, Holding, Decide, AfterCall, CallEffect, Obey, StatusAfter, MachineName, Hist, ViewOf, Target, Echo, CallName;
    var info, after := Answered(w, e).info, AfterCall(w.vm, call, Answered(w, e));
    var s1 := CallSteps(s, k, w.vm, view, call, info);
    EffectIsObey(s, k, w, e, call, info);
    HoldingCur(s1, k, w.vm, view, after);
    s' := s1;
    if after.WriteStatus? {
      s' := WriteSteps(s1, k, w.vm, view, after.input, e.now);
      KeepsName(w.vm, after.input, e.now);
      LeadsTrans(s, s1, s');
    }
    Reholds(s', k, w, Round(w, e).vm, Round(w, e).machines);
  }

  lemma {:induction false} RoundsSteps(s: Cluster, k: Key, w: World, es: seq<Scene>) returns (s': Cluster)
    requires Holds(s, k, w) && Resting(s, k) && SeenOf(s, k) < |Hist(s, k)| && Valid(w) && FairRounds(w, es)
    ensures Leads(s, s') && Holds(s', k, Rounds(w, es)) && Resting(s', k) && SeenOf(s', k) < |Hist(s', k)|
  {
    hide Leads, Holds, Fair, Valid, Round, Hist;
    if es == [] {
      LeadsSelf(s);
      s' := s;
    } else {
      var front, last := es[..|es| - 1], es[|es| - 1];
      FairPrefix(w, es);
      var s1 := RoundsSteps(s, k, w, front);
      StaysValid(w, front);
      s' := RoundSteps(s1, k, Rounds(w, front), last);
      LeadsTrans(s, s1, s');
    }
  }

  lemma StaysValid(w: World, es: seq<Scene>)
    requires Valid(w) && FairRounds(w, es)
    ensures Valid(Rounds(w, es))
  {
    hide FairRounds, Rounds, Valid;
    RoundsProgress(w, es);
  }

  /** From any state of any run with agreeing reads in which a live valid VM is not being
      reconciled: the run can go on with undisturbed reconciles, and after as many as the measure
      says, at most five, the VM the cluster holds is settled, with the verdict fixed by the
      machine on its node at the outset. */
  lemma SettlesAlone(states: seq<Cluster>, steps: seq<Step>, k: Key, es: seq<Scene>)
    returns (states': seq<Cluster>, steps': seq<Step>)
    requires GoodRun(states, steps) && Cur(states[|steps|], k).At? && Resting(states[|steps|], k)
    requires var w := WorldOf(states[|steps|], k); Valid(w) && FairRounds(w, es) && Rank(w) <= |es|
    ensures var w := WorldOf(states[|steps|], k);
            && Rank(w) <= 5
            && GoodRun(states', steps') && states <= states' && steps <= steps'
            && Holds(states'[|steps'|], k, Rounds(w, es))
            && Shows(Rounds(w, es), Fate(w.vm.spec, MachineAt(w, Rounds(w, es).vm.status.nodeName)))
  {
    hide Leads, GoodRun, Holds, FairRounds, Rounds, Valid, Rank, Shows, Fate, Inv, WorldOf;
    LastInv(states, steps);
    var s, w := states[|steps|], WorldOf(states[|steps|], k);
    HoldsWorld(s, k);
    CursorBelow(s, k);
    var s' := RoundsSteps(s, k, w, es);
    Settles(w, es);
    states', steps' := LeadsRun(states, steps, s');
  }

  lemma Settles(w: World, es: seq<Scene>)
    requires Valid(w) && FairRounds(w, es) && |es| >= Rank(w)
    ensures Rank(w) <= 5 && Shows(Rounds(w, es), Fate(w.vm.spec, MachineAt(w, Rounds(w, es).vm.status.nodeName)))
  {
    hide FairRounds, Rounds, Valid, Rank, Shows, Fate;
    Converges(w, es, Scene([], map[], [], Answer(None, None, None), 0, "", None));
  }

  lemma LastInv(states: seq<Cluster>, steps: seq<Step>)
    requires GoodRun(states, steps)
    ensures |states| == |steps| + 1 && Inv(states[|steps|])
  {
    hide Inv, Enabled, Apply, ReadsAgree, Init;
    RunInv(states, steps, |steps|);
  }

  lemma CursorBelow(s: Cluster, k: Key)
    requires Inv(s) && Cur(s, k).At?
    ensures SeenOf(s, k) < |Hist(s, k)|
  {
    hide Inv, Legal, Ordered, LiveStays, BoundSeen, WorkerOk;
    InvKey(s, k);
  }

  // ---- Deletion ---------------------------------------------------------------------

  /** The finalizer can go: the VM was never bound, its runtime can be asked, or the user gave up the
      machine. */
  predicate MayGo(vm: SmolVM, view: View) {
    || vm.status.nodeName == "" || Usable(vm.status.nodeName, view)
    || (FORCE_DELETE_ANNOTATION in vm.annotations && vm.annotations[FORCE_DELETE_ANNOTATION] == "true")
  }

  /** An uninterrupted reconcile of a VM on its way out, with a usable runtime or the force
      annotation if it is bound, finishes the job: the VM is gone; and unless it had to be forced, no
      machine of its name is left on any node. */
  lemma DeletionCompletes(states: seq<Cluster>, steps: seq<Step>, k: Key, view: View)
    returns (states': seq<Cluster>, steps': seq<Step>)
    requires GoodRun(states, steps) && Cur(states[|steps|], k).At? && Resting(states[|steps|], k)
    requires Cur(states[|steps|], k).vm.deleting && MayGo(Cur(states[|steps|], k).vm, view)
    requires HonestView(states[|steps|], Cur(states[|steps|], k).vm, view)
    ensures GoodRun(states', steps') && states <= states' && steps <= steps'
    ensures var vm, s' := Cur(states[|steps|], k).vm, states'[|steps'|];
            && Cur(s', k).Gone?
            && (vm.status.nodeName == "" || Usable(vm.status.nodeName, view) ==>
                  forall n :: Slot(n, StableMachineName(vm)) !in s'.machines)
  {
    hide Leads, GoodRun, Inv, Usable, HonestView, Cur, StableMachineName, MachineName;
    LastInv(states, steps);
    var s, vm := states[|steps|], Cur(states[|steps|], k).vm;
    CursorBelow(s, k);
    var s';
    if vm.status.nodeName == "" || Usable(vm.status.nodeName, view) {
      UsableIff(vm.status.nodeName, view);
      hide RuntimeProblem;
      s' := DeleteSteps(s, k, vm, view);
      LeadsInv(s, s');
      NoneLeft(s, s', k, vm);
    } else {
      s' := ForceSteps(s, k, vm, view);
    }
    states', steps' := LeadsRun(states, steps, s');
  }

  lemma ForceSteps(s: Cluster, k: Key, vm: SmolVM, view: View) returns (s': Cluster)
    requires Cur(s, k) == At(vm) && Resting(s, k) && SeenOf(s, k) < |Hist(s, k)| && HonestView(s, vm, view)
    requires vm.deleting && vm.Bound() && !Usable(vm.status.nodeName, view) && MayGo(vm, view)
    ensures Leads(s, s') && Cur(s', k).Gone?
  {
    hide Leads, Holding, Decide, HonestView, Usable, MachineName, Hist, Cur, AfterDrop;
    ForcePlan(vm, view);
    var s1 := LookSteps(s, k, view);
    s' := ForcedDropSteps(s1, k, vm, view);
    LeadsTrans(s, s1, s');
  }

  lemma ForcePlan(vm: SmolVM, view: View)
    requires vm.deleting && vm.Bound() && !Usable(vm.status.nodeName, view) && MayGo(vm, view)
    ensures Decide(vm, view) == DropFinalizer(true)
  {
    DeleteExactly(vm, view, CallNotFound, vm, 0);
    hide Usable, RuntimeProblem, StatusAfter;
  }

  lemma ForcedDropSteps(s: Cluster, k: Key, vm: SmolVM, view: View) returns (s': Cluster)
    requires Holding(s, k, vm, view, DropFinalizer(true))
    ensures Leads(s, s') && Cur(s', k).Gone?
  {
    hide Leads, AfterDrop;
    LeadsSelf(s);
    LeadsStep(s, s, CommitObject(k));
    s' := AfterCommitObject(s, k);
    CommittedNow(s, k, Gone, AfterDrop(s, vm, DropFinalizer(true)));
  }

  lemma DeletePlan(vm: SmolVM, view: View, info: MachineInfo)
    requires vm.deleting && (vm.Bound() ==> RuntimeProblem(vm.status.nodeName, view).None?)
    ensures Decide(vm, view) == if vm.Bound() then Call(Delete(MachineName(vm))) else DropFinalizer(false)
    ensures AfterCall(vm, Delete(MachineName(vm)), CallOk(info)) == DropFinalizer(false)
  {
    DistinctTagsDistinctNames(vm, vm);
    hide RuntimeProblem;
  }

  lemma DeleteSteps(s: Cluster, k: Key, vm: SmolVM, view: View) returns (s': Cluster)
    requires Cur(s, k) == At(vm) && Resting(s, k) && SeenOf(s, k) < |Hist(s, k)| && HonestView(s, vm, view)
    requires vm.deleting && (vm.Bound() ==> RuntimeProblem(vm.status.nodeName, view).None?)
    ensures Leads(s, s') && Cur(s', k).Gone? && s'.abandoned == s.abandoned && s'.births == s.births
  {
    hide Leads, Holding, Decide, AfterCall, CallEffect, HonestView, RuntimeProblem, MachineName, Hist, Cur;
    var info := MachineInfo("", "", 0, 0, None, [], false, None, None);
    DeletePlan(vm, view, info);
    var s1 := LookSteps(s, k, view);
    var s2 := s1;
    if vm.Bound() {
      s2 := CallSteps(s1, k, vm, view, Delete(MachineName(vm)), info);
      LeadsTrans(s, s1, s2);
    }
    s' := DropSteps(s2, k, vm, view);
    LeadsTrans(s, s2, s');
  }

  /** Once the VM is gone, and not by force, every machine of its name is. */
  lemma NoneLeft(s: Cluster, s': Cluster, k: Key, vm: SmolVM)
    requires Inv(s) && Inv(s') && Cur(s, k) == At(vm) && Cur(s', k).Gone? && s'.abandoned == s.abandoned && s'.births == s.births
    ensures forall n :: Slot(n, StableMachineName(vm)) !in s'.machines
  {
    hide KeyOk, HistOk, Coherent, StableMachineName, SweepsOk;
    InvKey(s, k);
    KeyHist(s, k);
    VersionOk(s, k, |Hist(s, k)| - 1);
    var m := StableMachineName(vm);
    assert CurNamed(s, m) == Some(vm);
    assert ControllerName(m) by { DistinctTagsDistinctNames(vm, vm); }
    forall n ensures Slot(n, m) !in s'.machines {
      assert !Sheltered(s', Slot(n, m)) && !Abandoned(s', Slot(n, m));
    }
  }
}
