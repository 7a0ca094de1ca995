/** The reconcile as the source runs it, statement by statement, with its effects recorded in
    order: runtime calls sent, objects updated, statuses written. Its inputs are what the outside
    answers: the two cached reads, the view while deciding, the outcome of the call it makes, and
    the clock. */
module Reconciler {
  import opened Types
  import opened StatusWriter
  import opened PortMatch
  import opened Scheduler
  import opened Decision
  import opened Protocol

  /** A runtime call and the node whose runtime it was sent to. */
  datatype Sent = Sent(node: string, call: RuntimeCall)

  datatype Effects = Effects(calls: seq<Sent>, updates: seq<SmolVM>, statuses: seq<Status>)

  const NO_EFFECTS := Effects([], [], [])

  /** What carrying out a plan without a call does. */
  function Finish(vm: SmolVM, plan: Plan, second: Option<SmolVM>, now: Time): Effects {
    match plan
    case AddFinalizer => NO_EFFECTS.(updates := [vm.(finalizer := true)])
    case DropFinalizer(_) => NO_EFFECTS.(updates := [vm.(finalizer := false)])
    case WriteStatus(input) =>
      (match second
       case None => NO_EFFECTS
       case Some(latest) =>
         var st := StatusAfter(latest.status, input, latest.generation, now);
         if st == latest.status then NO_EFFECTS else NO_EFFECTS.(statuses := [st]))
    case _ => NO_EFFECTS
  }

  /** What carrying out any plan does, with what follows its call. */
  function Carry(vm: SmolVM, plan: Plan, view: View, outcome: CallOutcome, second: Option<SmolVM>, now: Time): Effects {
    match plan
    case Call(call) => Finish(vm, AfterCall(vm, call, outcome), second, now).(calls := [Sent(Target(view), call)])
    case _ => Finish(vm, plan, second, now)
  }

  /** All effects of one reconcile. */
  function Trace(first: Option<SmolVM>, view: View, outcome: CallOutcome, second: Option<SmolVM>, now: Time): Effects {
    match first
    case None => NO_EFFECTS
    case Some(vm) => Carry(vm, Decide(vm, view), view, outcome, second, now)
  }

  /** At most one mutating call, one object update and one status write, never both writes; the
      call goes to the checked runtime of the VM's own node. */
  lemma TraceBounds(first: Option<SmolVM>, view: View, outcome: CallOutcome, second: Option<SmolVM>, now: Time)
    ensures var t := Trace(first, view, outcome, second, now);
            && |t.calls| <= 1 && |t.updates| + |t.statuses| <= 1
            && (t.calls != [] ==> first.Some? && RuntimeChecked(first.value, view)
                                  && t.calls[0].node == first.value.status.nodeName
                                  && CallName(t.calls[0].call) == MachineName(first.value))
  {
    hide Decide, AfterCall, StatusAfter, SpecProblem, Schedule, RuntimeProblem, CreateRequestFor, InputCoherent;
    if first.Some? {
      var plan := Decide(first.value, view);
      DecideFacts(first.value, view);
      if plan.Call? {
        AfterCallFacts(first.value, view, plan.call, outcome);
      }
    }
  }

  /** Soundness and completeness of the word Reconciled: a status this reconcile writes says
      Reconciled=True exactly when the machine just read is in the desired state, and when it is,
      the status says so afterwards even if nothing had to be written. */
  lemma TraceSound(vm: SmolVM, view: View, outcome: CallOutcome, second: Option<SmolVM>, now: Time)
    ensures var t := Trace(Some(vm), view, outcome, second, now);
            && (t.statuses != [] ==> (Says(t.statuses[0].conditions, "Reconciled", CondTrue) <==> InDesiredState(vm, view)))
            && (InDesiredState(vm, view) && second.Some? ==>
                  Says((if t.statuses != [] then t.statuses[0] else second.value.status).conditions, "Reconciled", CondTrue))
  {
    hide Decide, AfterCall, StatusAfter, InDesiredState;
    ReconciledSound(vm, view, outcome);
    var plan := Final(vm, view, outcome);
    TraceIsFinal(vm, view, outcome, second, now);
    if plan.WriteStatus? && second.Some? {
      VerdictsAfter(second.value.status, plan.input, second.value.generation, now);
    }
  }

  /** What a written status shows of the machine: the one just read, if that is how the reconcile
      ended, or the one just created; otherwise what was shown before. It is stamped with the
      generation of the second read. */
  lemma TraceObserves(vm: SmolVM, view: View, outcome: CallOutcome, second: Option<SmolVM>, now: Time)
    ensures var t := Trace(Some(vm), view, outcome, second, now);
            t.statuses != [] ==>
              && second.Some?
              && (if Asked(vm, view) && view.got.Found? && t.calls == [] then
                    Mirrors(t.statuses[0], view.got.info) && PhaseFits(t.statuses[0].phase, view.got.info)
                  else if Asked(vm, view) && view.got.NotFound? && outcome.CallOk? then
                    Mirrors(t.statuses[0], outcome.info) && PhaseFits(t.statuses[0].phase, outcome.info)
                  else SameObserved(t.statuses[0], second.value.status))
              && t.statuses[0].observedGeneration == second.value.generation
  {
    hide Decide, AfterCall, StatusAfter, Asked, Mirrors, SameObserved, PhaseFits;
    MachineWritten(vm, view, outcome);
    TraceIsFinal(vm, view, outcome, second, now);
    var plan := Final(vm, view, outcome);
    if plan.WriteStatus? && second.Some? {
      ObservedAfter(second.value.status, plan.input, second.value.generation, now);
    }
    CallsWhenDecided(vm, view, outcome, second, now);
  }

  lemma CallsWhenDecided(vm: SmolVM, view: View, outcome: CallOutcome, second: Option<SmolVM>, now: Time)
    ensures Trace(Some(vm), view, outcome, second, now).calls == [] <==> !Decide(vm, view).Call?
  {
    hide Decide, AfterCall, StatusAfter;
  }

  lemma TraceIsFinal(vm: SmolVM, view: View, outcome: CallOutcome, second: Option<SmolVM>, now: Time)
    ensures Trace(Some(vm), view, outcome, second, now).statuses == Finish(vm, Final(vm, view, outcome), second, now).statuses
  {
    hide Decide, AfterCall, StatusAfter;
  }

  /** The update a worker is left to commit, and the status its second read drafts. */
  function Pending(w: Worker, read: Version, rv: nat, now: Time): Effects {
    if !w.Planned? then NO_EFFECTS
    else match w.plan
      case AddFinalizer => NO_EFFECTS.(updates := [w.vm.(finalizer := true)])
      case DropFinalizer(_) => NO_EFFECTS.(updates := [w.vm.(finalizer := false)])
      case WriteStatus(_) =>
        var r := RereadWorker(w, read, rv, now);
        if r.Drafted? then NO_EFFECTS.(statuses := [r.status]) else NO_EFFECTS
      case _ => NO_EFFECTS
  }

  lemma PendingIsFinish(vm: SmolVM, rv0: nat, view: View, plan: Plan, read: Version, rv: nat, now: Time)
    ensures Pending(PlanOrIdle(vm, rv0, view, plan), read, rv, now) ==
            Finish(vm, plan, if read.At? then Some(read.vm) else None, now)
  {
    hide StatusAfter;
  }

  lemma LookWorker(s: Cluster, k: Key, view: View)
    requires WorkerOf(s, k).Fetched?
    ensures var w := WorkerOf(s, k);
            WorkerOf(AfterLook(s, k, view), k) == PlanOrIdle(w.vm, w.rv, view, Decide(w.vm, view))
  {
    hide Decide;
  }

  lemma PerformWorker(s: Cluster, k: Key, effect: bool, made: MachineInfo, outcome: CallOutcome)
    requires WorkerOf(s, k).Planned? && WorkerOf(s, k).plan.Call?
    ensures var w := WorkerOf(s, k);
            WorkerOf(AfterPerform(s, k, effect, made, outcome), k)
            == PlanOrIdle(w.vm, w.rv, w.view, AfterCall(w.vm, w.plan.call, outcome))
  {
    hide AfterCall, CallEffect;
  }

  /** The protocol's worker, taken through its steps without interruption, has exactly these
      effects: the call it performs, the update it is left to commit, and the status it drafts. */
  lemma WorkerIsTrace(s: Cluster, k: Key, view: View, effect: bool, made: MachineInfo, outcome: CallOutcome, read: Version, rv: nat, now: Time)
    requires WorkerOf(s, k).Fetched?
    ensures var w0, s1 := WorkerOf(s, k), AfterLook(s, k, view);
            var w1 := WorkerOf(s1, k);
            Trace(Some(w0.vm), view, outcome, if read.At? then Some(read.vm) else None, now) ==
            if w1.Planned? && w1.plan.Call?
            then Pending(WorkerOf(AfterPerform(s1, k, effect, made, outcome), k), read, rv, now)
                   .(calls := [Sent(Target(view), w1.plan.call)])
            else Pending(w1, read, rv, now)
  {
    hide Decide, AfterCall, StatusAfter, AfterLook, AfterPerform, Finish, Pending, WorkerOf;
    var w := WorkerOf(s, k);
    var s1, plan := AfterLook(s, k, view), Decide(w.vm, view);
    LookWorker(s, k, view);
    if plan.Call? {
      PerformWorker(s1, k, effect, made, outcome);
      PendingIsFinish(w.vm, w.rv, view, AfterCall(w.vm, plan.call, outcome), read, rv, now);
    } else {
      PendingIsFinish(w.vm, w.rv, view, plan, read, rv, now);
    }
  }

  class Run {
    const view: View
    const outcome: CallOutcome
    const second: Option<SmolVM>
    const now: Time
    var calls: seq<Sent>
    var updates: seq<SmolVM>
    var statuses: seq<Status>

    function Done(): Effects
      reads this
    {
      Effects(calls, updates, statuses)
    }

    constructor (view: View, outcome: CallOutcome, second: Option<SmolVM>, now: Time)
      ensures Done() == NO_EFFECTS
      ensures this.view == view && this.outcome == outcome && this.second == second && this.now == now
    {
      this.view, this.outcome, this.second, this.now := view, outcome, second, now;
      calls, updates, statuses := [], [], [];
    }

    method RuntimeForNode(nodeName: string) returns (problem: Option<string>)
      ensures problem == RuntimeProblem(nodeName, view)
      ensures problem.None? <==> Usable(nodeName, view)
    {
      UsableIff(nodeName, view);
      hide Usable;
      var node := FindNode(view.nodes, nodeName);
      if node.None? {
        return Some("get SmolVMNode");
      }
      if !Eligible(node.value.status, view.now) {
        return Some("SmolVMNode is not ready or heartbeat is stale");
      }
      if view.answer.healthy.None? {
        return Some("get runtime health");
      }
      if !view.answer.healthy.value {
        return Some("runtime is unhealthy");
      }
      if view.answer.identity.None? {
        return Some("get runtime identity");
      }
      var id := view.answer.identity.value;
      if id.nodeName != nodeName || (node.value.status.nodeUID != "" && id.nodeUID != "" && id.nodeUID != node.value.status.nodeUID) {
        return Some("runtime endpoint identity mismatch");
      }
      if view.answer.protocol.None? {
        return Some("get runtime capabilities");
      }
      if view.answer.protocol.value != "" && view.answer.protocol.value != node.value.status.protocolVersion {
        return Some("runtime protocol mismatch");
      }
      return None;
    }

    method Send(call: RuntimeCall) returns (r: CallOutcome)
      modifies this`calls
      ensures calls == old(calls) + [Sent(Target(view), call)] && r == outcome
    {
      calls := calls + [Sent(Target(view), call)];
      r := outcome;
    }

    /** The second read, the field-by-field rewrite, and the write unless nothing changed. */
    method UpdateStatus(ghost vm: SmolVM, input: StatusInput)
      modifies this`statuses
      ensures statuses == old(statuses) + Finish(vm, WriteStatus(input), second, now).statuses
      ensures statuses != old(statuses) ==>
                && second.Some? && |statuses| == |old(statuses)| + 1
                && var st := statuses[|statuses| - 1];
                   && (if input.machine.Some? then Mirrors(st, input.machine.value) else SameObserved(st, second.value.status))
                   && st.observedGeneration == second.value.generation
    {
      hide Mirrors, SameObserved, StatusAfter;
      if second.None? {
        return;
      }
      var latest := second.value;
      var draft := new StatusDraft(latest.status);
      draft.Apply(input, latest.generation, now);
      var st := draft.Snapshot();
      if st == latest.status {
        return;
      }
      statuses := statuses + [st];
    }

    method Update(vm: SmolVM)
      modifies this`updates
      ensures updates == old(updates) + [vm]
    {
      updates := updates + [vm];
    }

    method Drifts(spec: Spec, m: MachineInfo) returns (r: bool)
      ensures r == Drifted(spec, m)
    {
      if spec.cpus > 0 && m.cpus > 0 && spec.cpus != m.cpus {
        return true;
      }
      if spec.memoryMiB > 0 && m.memoryMiB > 0 && spec.memoryMiB != m.memoryMiB {
        return true;
      }
      var same := ComparePorts(spec.ports, m.ports);
      return !same;
    }

    method ReconcileDelete(vm: SmolVM)
      requires Done() == NO_EFFECTS && vm.deleting
      modifies this
      ensures Done() == Trace(Some(vm), view, outcome, second, now)
    {
      hide RuntimeProblem, Usable, StatusAfter, DeletionBlocked, Unavailable, MachineName, SpecProblem, DecidePlacement, DecideMachine;
      if vm.status.nodeName == "" || MachineName(vm) == "" {
        Update(vm.(finalizer := false));
        return;
      }
      var problem := RuntimeForNode(vm.status.nodeName);
      if problem.Some? {
        if vm.ForceDelete() {
          Update(vm.(finalizer := false));
          return;
        }
        UpdateStatus(vm, DeletionBlocked(vm, problem.value));
        return;
      }
      var r := Send(Delete(MachineName(vm)));
      if r.CallFailed? {
        UpdateStatus(vm, Unavailable(vm, r.text));
        return;
      }
      Update(vm.(finalizer := false));
    }

    method Place(vm: SmolVM)
      requires Done() == NO_EFFECTS && !vm.deleting && vm.finalizer && SpecProblem(vm).None? && !vm.Bound()
      modifies this
      ensures Done() == Trace(Some(vm), view, outcome, second, now)
    {
      hide Schedule, StatusAfter, Binding, Unplaced, SpecProblem;
      if view.apiFails {
        return;
      }
      var p := PickNode(vm, view.nodes, view.vms, view.kube, view.now);
      var node := if p.Placed? then p.node else "";
      if node == "" {
        UpdateStatus(vm, Unplaced(vm, PlacementText(p)));
        return;
      }
      UpdateStatus(vm, Binding(vm, node));
    }

    /** The branches once the machine has been read. */
    method Steer(vm: SmolVM, m: MachineInfo)
      requires Done() == NO_EFFECTS
      modifies this
      ensures Done() == Carry(vm, DecideFound(vm, m), view, outcome, second, now)
    {
      hide Observed, ResizePending, Unavailable, StatusAfter, Shrinks, Expands, Drifted, ResizeRequestFor, MachineName;
      var drifts := Drifts(vm.spec, m);
      if drifts {
        UpdateStatus(vm, Observed(vm, m, DRIFT));
        return;
      }
      if Shrinks(vm.spec, m) {
        UpdateStatus(vm, Observed(vm, m, SHRINK));
        return;
      }
      if Expands(vm.spec, m) {
        if m.state == "running" {
          UpdateStatus(vm, ResizePending(vm, m));
          return;
        }
        var call := Resize(MachineName(vm), ResizeRequestFor(vm.spec));
        var r := Send(call);
        Report(vm, call, r);
        return;
      }
      if vm.spec.running && m.state != "running" {
        var call := EnsureRunning(MachineName(vm));
        var r := Send(call);
        Report(vm, call, r);
        return;
      }
      if !vm.spec.running && m.state == "running" {
        var call := Stop(MachineName(vm));
        var r := Send(call);
        Report(vm, call, r);
        return;
      }
      UpdateStatus(vm, Observed(vm, m, RECONCILED));
    }

    /** A failed start, stop or resize is reported; a successful one waits for the next reconcile. */
    method Report(vm: SmolVM, ghost call: RuntimeCall, r: CallOutcome)
      requires call.Resize? || call.EnsureRunning? || call.Stop?
      modifies this`statuses
      ensures statuses == old(statuses) + Finish(vm, AfterCall(vm, call, r), second, now).statuses
    {
      match r
      case CallOk(_) =>
      case CallNotFound => UpdateStatus(vm, Unavailable(vm, "not found"));
      case CallFailed(text) => UpdateStatus(vm, Unavailable(vm, text));
    }

    method Reconcile(first: Option<SmolVM>)
      requires Done() == NO_EFFECTS
      modifies this
      ensures Done() == Trace(first, view, outcome, second, now)
    {
      if first.None? {
        return;
      }
      var vm := first.value;
      if vm.deleting {
        ReconcileDelete(vm);
        return;
      }
      if !vm.finalizer {
        Update(vm.(finalizer := true));
        return;
      }
      var e := ValidateSpec(vm);
      if e.Some? {
        UpdateStatus(vm, InvalidSpec(vm, e.value));
        return;
      }
      if vm.status.nodeName == "" {
        Place(vm);
        return;
      }
      Operate(vm);
    }

    method Operate(vm: SmolVM)
      requires Done() == NO_EFFECTS && !vm.deleting && vm.finalizer && SpecProblem(vm).None? && vm.Bound()
      modifies this
      ensures Done() == Trace(Some(vm), view, outcome, second, now)
    {
      hide RuntimeProblem, Usable, SpecProblem, DecideFound, StatusAfter, Created, Unavailable, CreateRequestFor, Schedule;
      var problem := RuntimeForNode(vm.status.nodeName);
      if problem.Some? {
        UpdateStatus(vm, Unavailable(vm, problem.value));
        return;
      }
      match view.got
      case NotFound =>
        var r := Send(Create(CreateRequestFor(vm)));
        match r {
          case CallOk(m) => UpdateStatus(vm, Created(vm, m));
          case CallNotFound => UpdateStatus(vm, Unavailable(vm, "not found"));
          case CallFailed(text) => UpdateStatus(vm, Unavailable(vm, text));
        }
      case GetFailed(text) => UpdateStatus(vm, Unavailable(vm, text));
      case Found(m) => Steer(vm, m);
    }
  }
}
