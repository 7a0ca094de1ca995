/** Undisturbed reconciles converge: with a fixed valid spec, nodes that stay usable and a runtime
    that does what it is asked, five reconciles settle a VM, and a measure says how far along it
    is. */
module Convergence {
  import opened Types
  import opened Conditions
  import opened StatusWriter
  import opened PortMatch
  import opened Scheduler
  import opened Decision
  import opened Protocol
  import opened Reconciler

  /** One VM and the machines that exist under its name, by node. */
  datatype World = World(vm: SmolVM, machines: map<string, MachineInfo>)

  /** What one reconcile finds around it. `made` is the state and process a new machine gets. */
  datatype Scene = Scene(
    nodes: seq<SmolVMNode>, kube: map<string, KubeNode>, others: seq<SmolVM>,
    answer: Answer, now: Time, state: string, pid: Option<Int32>)

  function MachineAt(w: World, n: string): Option<MachineInfo> {
    if n in w.machines then Some(w.machines[n]) else None
  }

  function Machine(w: World): Option<MachineInfo> { MachineAt(w, w.vm.status.nodeName) }

  function ViewOf(w: World, e: Scene): View {
    View(e.nodes, e.kube, e.others + [w.vm], false, e.answer,
         if Machine(w).Some? then Found(Machine(w).value) else NotFound, e.now)
  }

  /** The VM can proceed: its own node's runtime answers, or some node accepts it. */
  predicate Fair(w: World, e: Scene) {
    if w.vm.Bound() then RuntimeProblem(w.vm.status.nodeName, ViewOf(w, e)).None?
    else
      var p := Schedule(w.vm, e.nodes, e.others + [w.vm], e.kube, e.now);
      p.Placed? && p.node != ""
  }

  predicate Valid(w: World) { !w.vm.deleting && SpecProblem(w.vm).None? }

  /** A runtime that honours requests. */
  function Obey(machines: map<string, MachineInfo>, n: string, call: RuntimeCall, e: Scene): map<string, MachineInfo> {
    match call
    case Create(req) => machines[n := Echo(req, e.state, e.pid)]
    case Delete(_) => machines - {n}
    case EnsureRunning(_) => if n in machines then machines[n := machines[n].(state := "running")] else machines
    case Stop(_) => if n in machines then machines[n := machines[n].(state := "stopped")] else machines
    case Resize(_, size) => if n in machines then machines[n := Resized(machines[n], size)] else machines
  }

  function Write(vm: SmolVM, plan: Plan, now: Time): SmolVM {
    match plan
    case WriteStatus(input) => vm.(status := StatusAfter(vm.status, input, vm.generation, now))
    case AddFinalizer => vm.(finalizer := true)
    case _ => vm
  }

  /** The answer of an obedient runtime to the call the reconcile makes. */
  function Answered(w: World, e: Scene): CallOutcome {
    var plan := Decide(w.vm, ViewOf(w, e));
    CallOk(Echo(if plan.Call? && plan.call.Create? then plan.call.req else CreateRequestFor(w.vm), e.state, e.pid))
  }

  /** One undisturbed reconcile. */
  function Round(w: World, e: Scene): World {
    var plan := Decide(w.vm, ViewOf(w, e));
    World(Write(w.vm, if plan.Call? then AfterCall(w.vm, plan.call, Answered(w, e)) else plan, e.now),
          if plan.Call? then Obey(w.machines, w.vm.status.nodeName, plan.call, e) else w.machines)
  }

  /** What the effects of a reconcile leave of the object it read. */
  function Landed(vm: SmolVM, t: Effects): SmolVM {
    if t.updates != [] then t.updates[0]
    else if t.statuses != [] then vm.(status := t.statuses[0])
    else vm
  }

  lemma LandedIsWrite(vm: SmolVM, plan: Plan, now: Time, calls: seq<Sent>)
    requires !plan.DropFinalizer?
    ensures Landed(vm, Finish(vm, plan, Some(vm), now).(calls := calls)) == Write(vm, plan, now)
  {
    hide StatusAfter;
  }

  lemma KeepsFinalizer(w: World, e: Scene)
    requires !w.vm.deleting
    ensures var plan := Decide(w.vm, ViewOf(w, e));
            && !plan.DropFinalizer?
            && (plan.Call? ==> !AfterCall(w.vm, plan.call, Answered(w, e)).DropFinalizer?
                               && Target(ViewOf(w, e)) == w.vm.status.nodeName)
  {
    DecideFacts(w.vm, ViewOf(w, e));
    hide Decide, RuntimeProblem, SpecProblem, Schedule, StatusAfter, Created, Echo;
  }

  lemma TraceOfCall(vm: SmolVM, view: View, outcome: CallOutcome, now: Time)
    requires Decide(vm, view).Call?
    ensures var call := Decide(vm, view).call;
            Trace(Some(vm), view, outcome, Some(vm), now) ==
            Finish(vm, AfterCall(vm, call, outcome), Some(vm), now).(calls := [Sent(Target(view), call)])
  {
    hide Decide, AfterCall, Finish, Target;
  }

  lemma TraceOfPlan(vm: SmolVM, view: View, outcome: CallOutcome, now: Time)
    requires !Decide(vm, view).Call?
    ensures Trace(Some(vm), view, outcome, Some(vm), now) == Finish(vm, Decide(vm, view), Some(vm), now).(calls := [])
  {
    hide Decide, AfterCall, Finish, Target;
    NoCalls(vm, Decide(vm, view), now);
  }

  /** A round is the reconcile itself, with its second read current, its writes landing and its
      call obeyed on the node it was sent to. */
  lemma RoundIsTrace(w: World, e: Scene)
    requires !w.vm.deleting
    ensures var t := Trace(Some(w.vm), ViewOf(w, e), Answered(w, e), Some(w.vm), e.now);
            && Round(w, e).vm == Landed(w.vm, t)
            && Round(w, e).machines == (if t.calls == [] then w.machines else Obey(w.machines, t.calls[0].node, t.calls[0].call, e))
  {
    KeepsFinalizer(w, e);
    hide Decide, AfterCall, Finish, Landed, Write, Answered, Target, ViewOf, Obey, Trace;
    var plan, view := Decide(w.vm, ViewOf(w, e)), ViewOf(w, e);
    if plan.Call? {
      TraceOfCall(w.vm, view, Answered(w, e), e.now);
      LandedIsWrite(w.vm, AfterCall(w.vm, plan.call, Answered(w, e)), e.now, [Sent(Target(view), plan.call)]);
    } else {
      TraceOfPlan(w.vm, view, Answered(w, e), e.now);
      LandedIsWrite(w.vm, plan, e.now, []);
    }
  }

  lemma NoCalls(vm: SmolVM, plan: Plan, now: Time)
    ensures Finish(vm, plan, Some(vm), now).calls == []
  {
    hide StatusAfter;
  }

  function Rounds(w: World, es: seq<Scene>): World {
    if es == [] then w else Round(Rounds(w, es[..|es| - 1]), es[|es| - 1])
  }

  ghost predicate FairRounds(w: World, es: seq<Scene>) {
    forall i :: 0 <= i < |es| ==> Fair(Rounds(w, es[..i]), es[i])
  }

  // ---- Where a VM ends up -----------------------------------------------------------

  predicate Blocked(spec: Spec, m: MachineInfo) {
    Drifted(spec, m) || Shrinks(spec, m) || (Expands(spec, m) && Running(m))
  }

  /** The final verdict, read off the machine that is there at the start, if any. */
  function Fate(spec: Spec, m: Option<MachineInfo>): Verdict {
    if m.None? then RECONCILED
    else if Drifted(spec, m.value) then DRIFT
    else if Shrinks(spec, m.value) then SHRINK
    else if Expands(spec, m.value) && Running(m.value) then NEEDS_STOP
    else RECONCILED
  }

  predicate AtRest(spec: Spec, m: MachineInfo) {
    Blocked(spec, m) || (!Expands(spec, m) && (Running(m) <==> spec.running))
  }

  /** What a reconcile reports about a machine at rest. */
  function Report(vm: SmolVM, m: MachineInfo): StatusInput {
    if Drifted(vm.spec, m) then Observed(vm, m, DRIFT)
    else if Shrinks(vm.spec, m) then Observed(vm, m, SHRINK)
    else if Expands(vm.spec, m) then ResizePending(vm, m)
    else Observed(vm, m, RECONCILED)
  }

  /** The status already says what the next reconcile would report, at any time. */
  ghost predicate Reported(vm: SmolVM, m: MachineInfo) {
    forall t :: StatusAfter(vm.status, Report(vm, m), vm.generation, t) == vm.status
  }

  /** How many reconciles are left. */
  ghost function Rank(w: World): nat {
    if !w.vm.finalizer then 5
    else if !w.vm.Bound() then 4
    else match Machine(w)
      case None => 3
      case Some(m) =>
        if AtRest(w.vm.spec, m) then (if Reported(w.vm, m) then 0 else 1)
        else if Expands(w.vm.spec, m) then 3
        else 2
  }

  // ---- One round --------------------------------------------------------------------

  lemma RestPlan(w: World, e: Scene)
    requires Valid(w) && Fair(w, e) && w.vm.finalizer && w.vm.Bound() && Machine(w).Some?
    requires AtRest(w.vm.spec, Machine(w).value)
    ensures Decide(w.vm, ViewOf(w, e)) == WriteStatus(Report(w.vm, Machine(w).value))
  {
    hide RuntimeProblem, SpecProblem, Schedule, SamePorts;
  }

  lemma WrittenFields(vm: SmolVM, input: StatusInput, now: Time)
    ensures var vm' := Write(vm, WriteStatus(input), now);
            && vm'.status.nodeName == input.nodeName && vm'.status.machineName == input.machineName
            && vm' == vm.(status := StatusAfter(vm.status, input, vm.generation, now))
  {
    hide Settings, SetAll;
  }

  lemma ReportFields(vm: SmolVM, m: MachineInfo)
    ensures Report(vm, m).nodeName == vm.status.nodeName && Report(vm, m).machineName == MachineName(vm)
    ensures MachineName(vm) != ""
  {
    DistinctTagsDistinctNames(vm, vm);
    hide Drifted, Shrinks, Expands;
  }

  /** Reports depend on the VM only through its spec, node and machine name. */
  lemma SameReport(vm: SmolVM, vm': SmolVM, m: MachineInfo)
    requires vm'.spec == vm.spec && vm'.status.nodeName == vm.status.nodeName && MachineName(vm') == MachineName(vm)
    ensures Report(vm', m) == Report(vm, m)
  {
    hide MachineName, Drifted, Shrinks, Expands;
  }

  lemma WrittenReports(vm: SmolVM, m: MachineInfo, now: Time)
    ensures var vm' := Write(vm, WriteStatus(Report(vm, m)), now);
            && vm'.status.nodeName == vm.status.nodeName && vm'.status.machineName == MachineName(vm)
            && Reported(vm', m)
  {
    hide Report, StatusAfter, Write;
    var input := Report(vm, m);
    var vm' := Write(vm, WriteStatus(input), now);
    WrittenFields(vm, input, now);
    ReportFields(vm, m);
    SameReport(vm, vm', m);
    forall t ensures StatusAfter(vm'.status, input, vm.generation, t) == vm'.status {
      UpdateQuiescent(vm.status, input, vm.generation, now, t);
    }
  }

  /** A settled VM stays as it is, whatever the next reconcile finds. */
  lemma SettledFixpoint(w: World, e: Scene)
    requires Valid(w) && Fair(w, e) && Rank(w) == 0
    ensures Round(w, e) == w
  {
    RestPlan(w, e);
    hide Decide, Fair, SpecProblem, AtRest;
  }

  /** What every round keeps, and what it brings nearer. */
  ghost predicate Progress(w: World, w': World) {
    && Valid(w') && w'.vm.finalizer && w'.vm.spec == w.vm.spec
    && Rank(w') < Rank(w)
    && (w.vm.Bound() ==> w'.vm.status.nodeName == w.vm.status.nodeName && Fate(w.vm.spec, Machine(w')) == Fate(w.vm.spec, Machine(w)))
    && (!w.vm.Bound() ==> w'.machines == w.machines)
  }

  lemma RestDescends(w: World, e: Scene)
    requires Valid(w) && Fair(w, e) && w.vm.finalizer && Rank(w) == 1
    ensures Progress(w, Round(w, e))
  {
    RestPlan(w, e);
    hide Decide, Fair, AtRest, Report, Reported, Drifted, Shrinks, Expands;
    WrittenReports(w.vm, Machine(w).value, e.now);
  }

  lemma FinalizeDescends(w: World, e: Scene)
    requires Valid(w) && !w.vm.finalizer
    ensures Progress(w, Round(w, e))
  {
    hide SpecProblem, AtRest, Reported, DecideMachine, DecidePlacement, Fate;
    var w' := Round(w, e);
    assert w' == World(w.vm.(finalizer := true), w.machines);
    assert SpecProblem(w'.vm) == SpecProblem(w.vm) by { SameProblem(w.vm, w'.vm); }
  }

  lemma SameProblem(vm: SmolVM, vm': SmolVM)
    requires vm'.spec == vm.spec && (vm'.status.nodeName == vm.status.nodeName || vm'.spec.nodeName == "" || vm'.status.nodeName == vm'.spec.nodeName)
    ensures SpecProblem(vm).None? ==> SpecProblem(vm').None?
    ensures vm'.status.nodeName == vm.status.nodeName ==> SpecProblem(vm') == SpecProblem(vm)
  {
  }

  lemma PlaceDescends(w: World, e: Scene)
    requires Valid(w) && Fair(w, e) && w.vm.finalizer && !w.vm.Bound()
    ensures Progress(w, Round(w, e))
  {
    var n := Schedule(w.vm, e.nodes, e.others + [w.vm], e.kube, e.now).node;
    PlacePlan(w, e, n);
    PlacedPin(w, e, n);
    hide Decide, Fair, SpecProblem, AtRest, Reported, Fate, Schedule, Binding, StatusAfter;
    BindingFields(w.vm, n);
    WrittenFields(w.vm, Binding(w.vm, n), e.now);
    SameProblem(w.vm, Round(w, e).vm);
  }

  lemma BindingFields(vm: SmolVM, n: string)
    ensures Binding(vm, n).nodeName == n
  {
  }

  lemma PlacePlan(w: World, e: Scene, n: string)
    requires Valid(w) && Fair(w, e) && w.vm.finalizer && !w.vm.Bound()
    requires n == Schedule(w.vm, e.nodes, e.others + [w.vm], e.kube, e.now).node
    ensures n != "" && Decide(w.vm, ViewOf(w, e)) == WriteStatus(Binding(w.vm, n))
  {
    hide Schedule, Binding, SpecProblem;
  }

  lemma PlacedPin(w: World, e: Scene, n: string)
    requires Fair(w, e) && !w.vm.Bound() && n == Schedule(w.vm, e.nodes, e.others + [w.vm], e.kube, e.now).node
    ensures w.vm.spec.nodeName == "" || w.vm.spec.nodeName == n
  {
    ScheduleExact(w.vm, e.nodes, e.others + [w.vm], e.kube, e.now, BoundVMs(e.others + [w.vm], w.vm));
    hide Schedule, BoundVMs;
  }

  lemma MachinePlan(w: World, e: Scene)
    requires Valid(w) && Fair(w, e) && w.vm.finalizer && w.vm.Bound()
    ensures Decide(w.vm, ViewOf(w, e)) ==
            if Machine(w).None? then Call(Create(CreateRequestFor(w.vm))) else DecideFound(w.vm, Machine(w).value)
  {
    hide RuntimeProblem, SpecProblem, DecideFound, CreateRequestFor;
  }

  lemma CreateDescends(w: World, e: Scene)
    requires Valid(w) && Fair(w, e) && w.vm.finalizer && w.vm.Bound() && Machine(w).None?
    ensures Progress(w, Round(w, e))
  {
    MachinePlan(w, e);
    CreateRoundTrip(w.vm, e.state, e.pid);
    hide Decide, Fair, SpecProblem, Reported, CreateRequestFor, Created, StatusAfter, Drifted, Shrinks, Expands, Matches, Echo;
    var m := Echo(CreateRequestFor(w.vm), e.state, e.pid);
    CreatedFields(w.vm, m);
    WrittenFields(w.vm, Created(w.vm, m), e.now);
    SameProblem(w.vm, Round(w, e).vm);
  }

  lemma CreatedFields(vm: SmolVM, m: MachineInfo)
    ensures Created(vm, m).nodeName == vm.status.nodeName
  {
  }

  lemma PowerAndResizeDescend(w: World, e: Scene)
    requires Valid(w) && Fair(w, e) && w.vm.finalizer && w.vm.Bound() && Machine(w).Some?
    requires !AtRest(w.vm.spec, Machine(w).value)
    ensures Progress(w, Round(w, e))
  {
    MachinePlan(w, e);
    var m := Machine(w).value;
    if Expands(w.vm.spec, m) {
      ResizeGrows(w.vm.spec, m);
    }
    PowerKeeps(w.vm.spec, m, "running");
    PowerKeeps(w.vm.spec, m, "stopped");
    hide Decide, Fair, SpecProblem, Reported, Drifted, Shrinks, Expands, ResizeRequestFor, CreateRequestFor;
    SameProblem(w.vm, Round(w, e).vm);
  }

  /** Starting and stopping do not touch what is compared with the spec. */
  lemma PowerKeeps(spec: Spec, m: MachineInfo, state: string)
    ensures var r := m.(state := state);
            Drifted(spec, r) == Drifted(spec, m) && Shrinks(spec, r) == Shrinks(spec, m) && Expands(spec, r) == Expands(spec, m)
  {
  }

  lemma RoundDescends(w: World, e: Scene)
    requires Valid(w) && Fair(w, e) && Rank(w) > 0
    ensures Progress(w, Round(w, e))
  {
    hide Valid, Fair, Round, Progress, AtRest, Expands, Reported;
    if !w.vm.finalizer {
      FinalizeDescends(w, e);
    } else if !w.vm.Bound() {
      PlaceDescends(w, e);
    } else if Machine(w).None? {
      CreateDescends(w, e);
    } else if AtRest(w.vm.spec, Machine(w).value) {
      RestDescends(w, e);
    } else {
      PowerAndResizeDescend(w, e);
    }
  }

  // ---- Every run of rounds ----------------------------------------------------------

  /** What a settled VM shows: the verdict its fate demands, and the desired state if that
      verdict is Reconciled. */
  ghost predicate Shows(w: World, fate: Verdict) {
    && Rank(w) == 0
    && VerdictOf(w.vm.status.conditions, "Reconciled") == Some(fate)
    && (fate == RECONCILED ==> Machine(w).Some? && Matches(w.vm.spec, Machine(w).value))
    && (fate != RECONCILED ==> Machine(w).Some? && Blocked(w.vm.spec, Machine(w).value))
    && Mirrors(w.vm.status, Machine(w).value) && w.vm.status.observedGeneration == w.vm.generation
  }

  lemma SettledShows(w: World)
    requires Rank(w) == 0
    ensures Shows(w, Fate(w.vm.spec, Machine(w)))
  {
    var m := Machine(w).value;
    var input := Report(w.vm, m);
    VerdictsAfter(w.vm.status, input, w.vm.generation, 0);
    ObservedAfter(w.vm.status, input, w.vm.generation, 0);
    hide StatusAfter, Mirrors;
    assert StatusAfter(w.vm.status, input, w.vm.generation, 0) == w.vm.status;
    if !Blocked(w.vm.spec, m) {
      RestMatches(w.vm.spec, m);
    }
    hide Drifted, Shrinks, Expands, Matches;
  }

  lemma RestMatches(spec: Spec, m: MachineInfo)
    requires AtRest(spec, m) && !Blocked(spec, m)
    ensures Matches(spec, m)
  {
  }

  /** Where `w'` stands relative to the start: its machine's fate is that of the machine found
      at the start on the same node. */
  predicate Anchored(w: World, w': World) {
    && w'.vm.spec == w.vm.spec
    && (w.vm.Bound() ==> w'.vm.status.nodeName == w.vm.status.nodeName)
    && (w'.vm.Bound() ==> Fate(w.vm.spec, Machine(w')) == Fate(w.vm.spec, MachineAt(w, w'.vm.status.nodeName)))
    && (!w'.vm.Bound() ==> w'.machines == w.machines)
  }

  lemma AnchorStep(w: World, mid: World, w': World)
    requires Anchored(w, mid) && (w' == mid || Progress(mid, w'))
    ensures Anchored(w, w')
  {
    hide Valid, Rank, Fate;
  }

  lemma {:induction false} RoundsProgress(w: World, es: seq<Scene>)
    requires Valid(w) && FairRounds(w, es)
    ensures var w' := Rounds(w, es);
            Valid(w') && Anchored(w, w') && (Rank(w') == 0 || Rank(w') + |es| <= Rank(w))
  {
    hide Valid, Fair, Round, Rank, Anchored;
    if es == [] {
      AnchorSelf(w);
    } else {
      var n := |es| - 1;
      FairPrefix(w, es);
      RoundsProgress(w, es[..n]);
      var mid := Rounds(w, es[..n]);
      if Rank(mid) == 0 {
        SettledFixpoint(mid, es[n]);
      } else {
        RoundDescends(mid, es[n]);
      }
      AnchorStep(w, mid, Round(mid, es[n]));
    }
  }

  lemma AnchorSelf(w: World)
    ensures Anchored(w, w)
  {
  }

  lemma FairPrefix(w: World, es: seq<Scene>)
    requires FairRounds(w, es) && es != []
    ensures FairRounds(w, es[..|es| - 1]) && Fair(Rounds(w, es[..|es| - 1]), es[|es| - 1])
  {
    hide Fair, Rounds;
    var front := es[..|es| - 1];
    forall i | 0 <= i < |front| ensures Fair(Rounds(w, front[..i]), front[i]) {
      assert front[..i] == es[..i];
    }
  }

  /** Convergence: after as many reconciles as the measure says, at most five, the VM is settled.
      It shows Reconciled=True with a machine in the desired state, or is blocked by exactly one
      of drift, shrink, and expansion of a running machine; which one was decided by the machine
      found on its node at the start, and a VM that found none is never blocked. Further
      reconciles change nothing. */
  lemma Converges(w: World, es: seq<Scene>, e: Scene)
    requires Valid(w) && FairRounds(w, es) && |es| >= Rank(w)
    ensures Rank(w) <= 5
    ensures var w' := Rounds(w, es);
            && Shows(w', Fate(w.vm.spec, MachineAt(w, w'.vm.status.nodeName)))
            && (MachineAt(w, w'.vm.status.nodeName).None? ==> VerdictOf(w'.vm.status.conditions, "Reconciled") == Some(RECONCILED))
            && (Fair(w', e) ==> Round(w', e) == w')
  {
    hide Fair, Round, Valid, Rounds;
    RoundsProgress(w, es);
    var w' := Rounds(w, es);
    RankBound(w);
    assert Rank(w') == 0;
    RankZeroBound(w');
    SettledShows(w');
    hide Rank, Shows;
    if Fair(w', e) {
      SettledFixpoint(w', e);
    }
    ShowsVerdict(w', Fate(w.vm.spec, MachineAt(w, w'.vm.status.nodeName)));
  }

  lemma RankBound(w: World)
    ensures Rank(w) <= 5
  {
  }

  lemma RankZeroBound(w: World)
    requires Rank(w) == 0
    ensures w.vm.Bound() && Machine(w).Some?
  {
  }

  lemma ShowsVerdict(w: World, fate: Verdict)
    requires Shows(w, fate)
    ensures VerdictOf(w.vm.status.conditions, "Reconciled") == Some(fate)
  {
  }
}
