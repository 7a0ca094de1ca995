/** What one reconcile decides. `Decide` is the chain of branches from the first read to the
    first effect; `AfterCall` is what follows a runtime call. The interleaved protocol, the
    sequential convergence argument and the imperative reconciler all use these two. */
module Decision {
  import opened Types
  import opened Conditions
  import opened StatusWriter
  import opened PortMatch
  import opened Capacity
  import opened Scheduler

  datatype Identity = Identity(nodeName: string, nodeUID: string)

  /** What the process behind a node's advertised endpoint answers; None is a failed call. */
  datatype Answer = Answer(healthy: Option<bool>, identity: Option<Identity>, protocol: Option<string>)

  datatype GetResult = Found(info: MachineInfo) | NotFound | GetFailed(text: string)

  /** Everything a reconcile may look at besides the SmolVM itself. */
  datatype View = View(
    nodes: seq<SmolVMNode>, kube: map<string, KubeNode>, vms: seq<SmolVM>, apiFails: bool,
    answer: Answer, got: GetResult, now: Time)

  datatype RuntimeCall = Create(req: CreateRequest) | EnsureRunning(name: string) | Stop(name: string)
                       | Resize(name: string, size: ResizeRequest) | Delete(name: string)

  datatype CallOutcome = CallOk(info: MachineInfo) | CallNotFound | CallFailed(text: string)

  datatype Plan = Nothing | AddFinalizer | DropFinalizer(forced: bool) | WriteStatus(input: StatusInput) | Call(call: RuntimeCall)

  function CallName(c: RuntimeCall): string {
    match c
    case Create(req) => req.name
    case EnsureRunning(n) => n
    case Stop(n) => n
    case Resize(n, _) => n
    case Delete(n) => n
  }

  // ---- Spec validation --------------------------------------------------------------

  datatype SpecError = PinMoved | TwoSources | NoSource | DuplicateHostPort | BadCIDR

  function SpecProblem(vm: SmolVM): Option<SpecError> {
    if vm.Bound() && vm.spec.nodeName != "" && vm.spec.nodeName != vm.status.nodeName then Some(PinMoved)
    else if vm.spec.image != "" && vm.spec.from != "" then Some(TwoSources)
    else if vm.spec.image == "" && vm.spec.from == "" then Some(NoSource)
    else if !HostPortsDistinct(vm.spec.ports) then Some(DuplicateHostPort)
    else if exists i :: 0 <= i < |vm.spec.allowedCIDRs| && !vm.spec.allowedCIDRs[i].wellFormed then Some(BadCIDR)
    else None
  }

  function SpecErrorText(e: SpecError): string {
    match e
    case PinMoved => "spec.nodeName is immutable after binding"
    case TwoSources => "spec.image and spec.from are mutually exclusive"
    case NoSource => "one of spec.image or spec.from is required"
    case DuplicateHostPort => "duplicate hostPort"
    case BadCIDR => "invalid allowedCIDR"
  }

  method ValidateSpec(vm: SmolVM) returns (e: Option<SpecError>)
    ensures e == SpecProblem(vm)
  {
    if vm.status.nodeName != "" && vm.spec.nodeName != "" && vm.spec.nodeName != vm.status.nodeName {
      return Some(PinMoved);
    }
    if vm.spec.image != "" && vm.spec.from != "" {
      return Some(TwoSources);
    }
    if vm.spec.image == "" && vm.spec.from == "" {
      return Some(NoSource);
    }
    var seen: set<int> := {};
    for i := 0 to |vm.spec.ports|
      invariant forall p :: p in seen <==> exists j :: 0 <= j < i && vm.spec.ports[j].hostPort == p
      invariant HostPortsDistinct(vm.spec.ports[..i])
    {
      var port := vm.spec.ports[i].hostPort;
      if port in seen {
        return Some(DuplicateHostPort);
      }
      seen := seen + {port};
    }
    assert vm.spec.ports[..|vm.spec.ports|] == vm.spec.ports;
    for i := 0 to |vm.spec.allowedCIDRs|
      invariant forall j :: 0 <= j < i ==> vm.spec.allowedCIDRs[j].wellFormed
    {
      if !vm.spec.allowedCIDRs[i].wellFormed {
        return Some(BadCIDR);
      }
    }
    return None;
  }

  // ---- Requests and comparisons -----------------------------------------------------

  function Sized(gib: Int64): Option<Int64> { if gib > 0 then Some(gib) else None }

  function CreatePorts(ports: seq<VMPort>): (r: seq<PortSpec>)
    ensures |r| == |ports| && forall i :: 0 <= i < |r| ==> r[i] == PortSpec(ports[i].hostPort, ports[i].guestPort)
  {
    seq(|ports|, i requires 0 <= i < |ports| => PortSpec(ports[i].hostPort, ports[i].guestPort))
  }

  function CreateRequestFor(vm: SmolVM): CreateRequest {
    CreateRequest(MachineName(vm), vm.spec.cpus, vm.spec.memoryMiB, CreatePorts(vm.spec.ports), vm.spec.netEnabled,
                  Sized(vm.spec.storageGiB), Sized(vm.spec.overlayGiB),
                  vm.spec.allowedCIDRs, vm.spec.image, vm.spec.from)
  }

  function ResizeRequestFor(spec: Spec): ResizeRequest {
    ResizeRequest(Sized(spec.storageGiB), Sized(spec.overlayGiB))
  }

  predicate Drifted(spec: Spec, m: MachineInfo) {
    || (spec.cpus > 0 && m.cpus > 0 && spec.cpus != m.cpus)
    || (spec.memoryMiB > 0 && m.memoryMiB > 0 && spec.memoryMiB != m.memoryMiB)
    || !SamePorts(spec.ports, m.ports)
  }

  predicate Shrinks(spec: Spec, m: MachineInfo) {
    || (spec.storageGiB > 0 && m.storageGB.Some? && spec.storageGiB < m.storageGB.value)
    || (spec.overlayGiB > 0 && m.overlayGB.Some? && spec.overlayGiB < m.overlayGB.value)
  }

  predicate Expands(spec: Spec, m: MachineInfo) {
    || (spec.storageGiB > 0 && m.storageGB.Some? && spec.storageGiB > m.storageGB.value)
    || (spec.overlayGiB > 0 && m.overlayGB.Some? && spec.overlayGiB > m.overlayGB.value)
  }

  predicate Running(m: MachineInfo) { m.state == "running" }

  function PhaseOf(m: MachineInfo): string {
    if m.state == "running" then "Running"
    else if m.state == "stopped" then "Stopped"
    else if m.state == "created" then "Created"
    else "Unknown"
  }

  function ReadyOf(m: MachineInfo): ConditionStatus { if Running(m) then CondTrue else CondFalse }

  // ---- Reaching a node's runtime ----------------------------------------------------

  /** Why the runtime of a node cannot be used, checked before any machine call. */
  function RuntimeProblem(nodeName: string, view: View): Option<string> {
    match FindNode(view.nodes, nodeName)
    case None => Some("get SmolVMNode")
    case Some(node) =>
      if !Eligible(node.status, view.now) then Some("SmolVMNode is not ready or heartbeat is stale")
      else if view.answer.healthy.None? then Some("get runtime health")
      else if !view.answer.healthy.value then Some("runtime is unhealthy")
      else match view.answer.identity
        case None => Some("get runtime identity")
        case Some(id) =>
          if id.nodeName != nodeName
             || (node.status.nodeUID != "" && id.nodeUID != "" && id.nodeUID != node.status.nodeUID)
          then Some("runtime endpoint identity mismatch")
          else match view.answer.protocol
            case None => Some("get runtime capabilities")
            case Some(p) => if p != "" && p != node.status.protocolVersion then Some("runtime protocol mismatch") else None
  }

  /** The runtime may be used: the node is listed and eligible, and what answers at its endpoint
      is healthy, is that very node, and speaks its protocol. */
  predicate Usable(nodeName: string, view: View) {
    var node := FindNode(view.nodes, nodeName);
    var answer := view.answer;
    && node.Some? && ReportedUp(node.value.status, view.now)
    && answer.healthy == Some(true)
    && answer.identity.Some? && answer.identity.value.nodeName == nodeName
    && (node.value.status.nodeUID == "" || answer.identity.value.nodeUID in ["", node.value.status.nodeUID])
    && answer.protocol.Some? && (answer.protocol.value == "" || answer.protocol.value == node.value.status.protocolVersion)
  }

  /** The checks stop a call exactly when the runtime may not be used. */
  lemma UsableIff(nodeName: string, view: View)
    ensures RuntimeProblem(nodeName, view).None? <==> Usable(nodeName, view)
  {
    if FindNode(view.nodes, nodeName).Some? {
      EligibleExactly(FindNode(view.nodes, nodeName).value.status, view.now);
    }
    hide Eligible, ReportedUp;
  }

  // ---- Status inputs ----------------------------------------------------------------

  function Plain(vm: SmolVM, phase: string, machine: Option<MachineInfo>, ready: Verdict, recon: Verdict): StatusInput {
    StatusInput(phase, vm.status.nodeName, MachineName(vm), machine, None, ready, recon, None)
  }

  function InvalidSpec(vm: SmolVM, e: SpecError): StatusInput {
    var v := Verdict(CondFalse, "InvalidSpec", SpecErrorText(e));
    Plain(vm, "Failed", None, v, v)
  }

  function RejectText(r: Reject): string {
    match r
    case NotReady => "runtime not ready, heartbeat stale, or endpoint missing"
    case SelectorMismatch => "nodeSelector does not match"
    case KubeNodeMissing => "Kubernetes Node unavailable"
    case Cordoned => "Kubernetes Node is unschedulable"
    case KubeNotReady => "Kubernetes Node is not Ready"
    case Short(d) => (match d case CPU => "insufficient cpu" case Memory => "insufficient memory" case Storage => "insufficient storage")
    case PortConflict => "hostPort conflicts"
  }

  function JoinReasons(rs: seq<Rejection>): string {
    if rs == [] then ""
    else (if |rs| == 1 then "" else JoinReasons(rs[..|rs| - 1]) + "; ") + rs[|rs| - 1].node + ": " + RejectText(rs[|rs| - 1].reason)
  }

  function PlacementText(p: Placement): string {
    match p
    case Placed(_) => ""
    case NoNodes => "no SmolVMNode objects exist"
    case NoneFit(rs) => "no ready SmolVMNode matches this VM: " + JoinReasons(rs)
    case PinMissing => "pinned node has no SmolVMNode runtime status"
    case PinRejected(r) => "pinned node is not eligible: " + RejectText(r)
  }

  function Unplaced(vm: SmolVM, text: string): StatusInput {
    var v := Verdict(CondFalse, "AwaitingNodeAssignment", text);
    StatusInput("Pending", "", MachineName(vm), None, Some(Verdict(CondFalse, "NoEligibleNodes", text)), v, v, None)
  }

  function Binding(vm: SmolVM, node: string): StatusInput {
    StatusInput("Scheduled", node, MachineName(vm), None, Some(BoundVerdict(node)),
                Verdict(CondFalse, "Scheduled", "waiting for node runtime reconciliation"),
                Verdict(CondFalse, "RuntimePending", "waiting for node runtime reconciliation"), None)
  }

  function Unavailable(vm: SmolVM, text: string): StatusInput {
    var v := Verdict(CondFalse, "RuntimeUnavailable", text);
    Plain(vm, "Unknown", None, v, v)
  }

  function DeletionBlocked(vm: SmolVM, text: string): StatusInput {
    StatusInput("Deleting", vm.status.nodeName, MachineName(vm), None, Some(BoundVerdict(vm.status.nodeName)),
                Verdict(CondFalse, "RuntimeUnavailable", text), Verdict(CondFalse, "DeletionBlocked", text),
                Some(Verdict(CondTrue, "RuntimeUnavailable", "owning node is unavailable; local VM state may still exist")))
  }

  function Created(vm: SmolVM, m: MachineInfo): StatusInput {
    Plain(vm, PhaseOf(m), Some(m),
          Verdict(CondFalse, "Created", "smolvm machine has been created; waiting before start"),
          Verdict(CondFalse, "StartPending", "waiting for smolvm create operation to release runtime locks"))
  }

  function Observed(vm: SmolVM, m: MachineInfo, recon: Verdict): StatusInput {
    Plain(vm, PhaseOf(m), Some(m), Verdict(ReadyOf(m), "Observed", "smolvm machine is " + m.state), recon)
  }

  const DRIFT := Verdict(CondFalse, "UnsupportedUpdate", "field is immutable after creation")
  const SHRINK := Verdict(CondFalse, "InvalidStorageResize", "storage cannot shrink")
  const NEEDS_STOP := Verdict(CondFalse, "ResizeRequiresStoppedMachine", "set spec.running=false before expanding storage")
  const RECONCILED := Verdict(CondTrue, "Reconciled", "desired state matches smolvm runtime state")

  function ResizePending(vm: SmolVM, m: MachineInfo): StatusInput {
    Plain(vm, PhaseOf(m), Some(m),
          Verdict(ReadyOf(m), "ResizePending", "storage expansion requires the machine to be stopped"), NEEDS_STOP)
  }

  // ---- The chain --------------------------------------------------------------------

  function Decide(vm: SmolVM, view: View): Plan {
    if vm.deleting then DecideDelete(vm, view)
    else if !vm.finalizer then AddFinalizer
    else match SpecProblem(vm)
      case Some(e) => WriteStatus(InvalidSpec(vm, e))
      case None => if vm.Bound() then DecideMachine(vm, view) else DecidePlacement(vm, view)
  }

  function DecideDelete(vm: SmolVM, view: View): Plan {
    if !vm.Bound() || MachineName(vm) == "" then DropFinalizer(false)
    else match RuntimeProblem(vm.status.nodeName, view)
      case Some(text) => if vm.ForceDelete() then DropFinalizer(true) else WriteStatus(DeletionBlocked(vm, text))
      case None => Call(Delete(MachineName(vm)))
  }

  function DecidePlacement(vm: SmolVM, view: View): Plan {
    if view.apiFails then Nothing
    else match Schedule(vm, view.nodes, view.vms, view.kube, view.now)
      case Placed(node) => if node == "" then WriteStatus(Unplaced(vm, "")) else WriteStatus(Binding(vm, node))
      case other => WriteStatus(Unplaced(vm, PlacementText(other)))
  }

  function DecideMachine(vm: SmolVM, view: View): Plan {
    match RuntimeProblem(vm.status.nodeName, view)
    case Some(text) => WriteStatus(Unavailable(vm, text))
    case None =>
      match view.got
      case NotFound => Call(Create(CreateRequestFor(vm)))
      case GetFailed(text) => WriteStatus(Unavailable(vm, text))
      case Found(m) => DecideFound(vm, m)
  }

  function DecideFound(vm: SmolVM, m: MachineInfo): Plan {
    if Drifted(vm.spec, m) then WriteStatus(Observed(vm, m, DRIFT))
    else if Shrinks(vm.spec, m) then WriteStatus(Observed(vm, m, SHRINK))
    else if Expands(vm.spec, m) then
      if Running(m) then WriteStatus(ResizePending(vm, m)) else Call(Resize(MachineName(vm), ResizeRequestFor(vm.spec)))
    else if vm.spec.running && !Running(m) then Call(EnsureRunning(MachineName(vm)))
    else if !vm.spec.running && Running(m) then Call(Stop(MachineName(vm)))
    else WriteStatus(Observed(vm, m, RECONCILED))
  }

  function AfterCall(vm: SmolVM, call: RuntimeCall, outcome: CallOutcome): Plan {
    match call
    case Create(_) =>
      (match outcome
       case CallOk(m) => WriteStatus(Created(vm, m))
       case CallNotFound => WriteStatus(Unavailable(vm, "not found"))
       case CallFailed(text) => WriteStatus(Unavailable(vm, text)))
    case Delete(_) =>
      (match outcome
       case CallFailed(text) => WriteStatus(Unavailable(vm, text))
       case _ => DropFinalizer(false))
    case _ =>
      (match outcome
       case CallOk(_) => Nothing
       case CallNotFound => WriteStatus(Unavailable(vm, "not found"))
       case CallFailed(text) => WriteStatus(Unavailable(vm, text)))
  }

  /** What the reconcile is left to carry out once its call, if it makes one, has come back. */
  function Final(vm: SmolVM, view: View, outcome: CallOutcome): Plan {
    match Decide(vm, view)
    case Call(call) => AfterCall(vm, call, outcome)
    case plan => plan
  }

  // ---- What every plan satisfies ----------------------------------------------------

  /** The runtime about to be called is up, fresh, and says it is the VM's own node. */
  ghost predicate RuntimeChecked(vm: SmolVM, view: View) {
    && vm.Bound()
    && view.answer.identity.Some? && view.answer.identity.value.nodeName == vm.status.nodeName
    && exists node :: node in view.nodes && node.name == vm.status.nodeName && ReportedUp(node.status, view.now)
  }

  /** The node a status write names: the binding the reconcile read, else where it would place
      the VM now, else none. */
  function Chosen(vm: SmolVM, view: View): string {
    if vm.Bound() then vm.status.nodeName
    else if SpecProblem(vm).None? && !view.apiFails && Schedule(vm, view.nodes, view.vms, view.kube, view.now).Placed?
    then Schedule(vm, view.nodes, view.vms, view.kube, view.now).node
    else ""
  }

  /** Facts about a plan that the rest of the reconcile relies on. */
  ghost predicate PlanFacts(vm: SmolVM, view: View, plan: Plan) {
    match plan
    case Nothing => true
    case AddFinalizer => !vm.deleting
    case DropFinalizer(forced) => vm.deleting && (forced ==> vm.Bound() && vm.ForceDelete() && RuntimeProblem(vm.status.nodeName, view).Some?)
    case WriteStatus(input) =>
      && InputCoherent(input)
      && input.machineName == MachineName(vm)
      && (vm.deleting ==> vm.Bound()) && (!vm.deleting ==> vm.finalizer)
      && input.nodeName == Chosen(vm, view)
    case Call(call) =>
      && RuntimeChecked(vm, view)
      && CallName(call) == MachineName(vm)
      && (call.Delete? <==> vm.deleting)
      && (!call.Delete? ==> vm.finalizer && SpecProblem(vm).None?)
      && (call.Create? ==> view.got.NotFound? && call.req == CreateRequestFor(vm))
      && (call.Resize? ==> view.got.Found? && ResizeAllowed(vm.spec, view.got.info) && call.size == ResizeRequestFor(vm.spec))
  }

  predicate ResizeAllowed(spec: Spec, m: MachineInfo) {
    !Shrinks(spec, m) && Expands(spec, m) && !Running(m)
  }

  lemma RuntimeProblemChecked(vm: SmolVM, view: View)
    requires vm.Bound() && RuntimeProblem(vm.status.nodeName, view).None?
    ensures RuntimeChecked(vm, view)
  {
    var node := FindNode(view.nodes, vm.status.nodeName).value;
    assert node in view.nodes;
    EligibleExactly(node.status, view.now);
    hide Eligible, ReportedUp;
  }

  lemma FoundFacts(vm: SmolVM, view: View)
    requires !vm.deleting && vm.finalizer && SpecProblem(vm).None? && vm.Bound() && view.got.Found?
    requires RuntimeChecked(vm, view)
    ensures PlanFacts(vm, view, DecideFound(vm, view.got.info))
  {
  }

  /** Every decision is sanctioned: a machine is created or changed only for a VM that holds
      the finalizer and is not being deleted, and deleted only for one that is; every call goes
      to a checked runtime under the VM's own machine name; a finalizer is dropped by force only
      while the runtime is unusable. */
  lemma DecideFacts(vm: SmolVM, view: View)
    ensures PlanFacts(vm, view, Decide(vm, view))
  {
    if vm.Bound() && RuntimeProblem(vm.status.nodeName, view).None? {
      RuntimeProblemChecked(vm, view);
      if !vm.deleting && vm.finalizer && SpecProblem(vm).None? && view.got.Found? {
        FoundFacts(vm, view);
      }
    }
  }

  lemma AfterCallFacts(vm: SmolVM, view: View, call: RuntimeCall, outcome: CallOutcome)
    requires PlanFacts(vm, view, Call(call))
    ensures PlanFacts(vm, view, AfterCall(vm, call, outcome))
    ensures !AfterCall(vm, call, outcome).Call?
  {
    hide Schedule, SpecProblem, RuntimeProblem, ReportedUp, CreateRequestFor, ResizeRequestFor, ResizeAllowed;
  }

  /** The desired state, as a property of the spec and the machine alone. */
  predicate Matches(spec: Spec, m: MachineInfo) {
    && (m.state == "running" <==> spec.running)
    && multiset(SpecPairs(spec.ports)) == multiset(RuntimePairs(m.ports))
    && (spec.cpus > 0 && m.cpus > 0 ==> spec.cpus == m.cpus)
    && (spec.memoryMiB > 0 && m.memoryMiB > 0 ==> spec.memoryMiB == m.memoryMiB)
    && (spec.storageGiB > 0 && m.storageGB.Some? ==> m.storageGB.value == spec.storageGiB)
    && (spec.overlayGiB > 0 && m.overlayGB.Some? ==> m.overlayGB.value == spec.overlayGiB)
  }

  /** The VM is live, valid, bound and reachable, and the machine just read is as its spec asks. */
  predicate InDesiredState(vm: SmolVM, view: View) {
    && !vm.deleting && vm.finalizer && SpecProblem(vm).None? && vm.Bound()
    && RuntimeProblem(vm.status.nodeName, view).None?
    && view.got.Found? && Matches(vm.spec, view.got.info)
  }

  predicate WritesTrue(plan: Plan) { plan.WriteStatus? && plan.input.recon.status == CondTrue }

  lemma DecidesTrue(vm: SmolVM, view: View)
    ensures WritesTrue(Decide(vm, view)) <==> InDesiredState(vm, view)
    ensures WritesTrue(Decide(vm, view)) ==> Decide(vm, view).input.machine == Some(view.got.info)
  {
    hide RuntimeProblem, SpecProblem, Schedule;
  }

  lemma CallNeverTrue(vm: SmolVM, call: RuntimeCall, outcome: CallOutcome)
    ensures !WritesTrue(AfterCall(vm, call, outcome)) && !AfterCall(vm, call, outcome).Call?
  {
  }

  /** A reconcile, whatever it does and whatever its call returns, ends by writing Reconciled=True
      exactly when the machine it just read is in the desired state. */
  lemma ReconciledSound(vm: SmolVM, view: View, outcome: CallOutcome)
    ensures WritesTrue(Final(vm, view, outcome)) <==> InDesiredState(vm, view)
    ensures WritesTrue(Final(vm, view, outcome)) ==> Final(vm, view, outcome).input.machine == Some(view.got.info)
  {
    hide Decide, AfterCall, InDesiredState;
    DecidesTrue(vm, view);
    if Decide(vm, view).Call? {
      CallNeverTrue(vm, Decide(vm, view).call, outcome);
    }
  }

  // ---- Deletion, failures, validity, machines: on the fields themselves --------------

  /** A VM being deleted is let go when it was never bound or its machine is deleted or not there; with
      an unusable runtime, exactly when it carries the force annotation with the value true; and
      otherwise the status says the deletion is blocked, or what the delete call ran into. */
  lemma DeleteExactly(vm: SmolVM, view: View, outcome: CallOutcome, latest: SmolVM, now: Time)
    requires vm.deleting
    ensures var plan := Final(vm, view, outcome);
            && (!vm.Bound() ==> plan == DropFinalizer(false))
            && (vm.Bound() && Usable(vm.status.nodeName, view) ==>
                  Decide(vm, view) == Call(Delete(MachineName(vm))) &&
                  if outcome.CallFailed? then plan.WriteStatus? else plan == DropFinalizer(false))
            && (vm.Bound() && !Usable(vm.status.nodeName, view) ==>
                  && (plan == DropFinalizer(true) <==>
                      FORCE_DELETE_ANNOTATION in vm.annotations && vm.annotations[FORCE_DELETE_ANNOTATION] == "true")
                  && (plan != DropFinalizer(true) ==>
                        plan.WriteStatus? &&
                        var st := StatusAfter(latest.status, plan.input, latest.generation, now);
                        && Says(st.conditions, "DeletionBlocked", CondTrue) && Says(st.conditions, "Reconciled", CondFalse)
                        && st.phase == "Deleting" && st.nodeName == vm.status.nodeName))
  {
    UsableIff(vm.status.nodeName, view);
    DistinctTagsDistinctNames(vm, vm);
    hide RuntimeProblem, Usable, StatusAfter, StableMachineName, AfterCall;
    var plan := Final(vm, view, outcome);
    DeletedPlans(vm, outcome);
    if plan.WriteStatus? {
      BlockedAfter(latest.status, plan.input, latest.generation, now);
      VerdictsAfter(latest.status, plan.input, latest.generation, now);
      ObservedAfter(latest.status, plan.input, latest.generation, now);
    }
  }

  lemma DeletedPlans(vm: SmolVM, outcome: CallOutcome)
    ensures var after := AfterCall(vm, Delete(MachineName(vm)), outcome);
            if outcome.CallFailed? then after.WriteStatus? else after == DropFinalizer(false)
  {
  }

  /** A call that failed, or found nothing where there had to be a machine, is reported: neither
      ready nor reconciled, in phase Unknown, with the error as the message. */
  lemma FailureReported(vm: SmolVM, view: View, outcome: CallOutcome)
    requires Decide(vm, view).Call?
    requires outcome.CallFailed? || (outcome.CallNotFound? && !vm.deleting)
    ensures var plan := Final(vm, view, outcome);
            && plan.WriteStatus? && plan.input.phase == "Unknown" && plan.input.machine.None?
            && plan.input.ready.status == CondFalse && plan.input.recon.status == CondFalse
            && (outcome.CallFailed? ==> plan.input.recon.message == outcome.text)
  {
    DecideFacts(vm, view);
    hide Decide, RuntimeChecked, SpecProblem, CreateRequestFor, ResizeRequestFor, ResizeAllowed, MachineName;
  }

  /** Neither ready nor reconciled, in this phase, on this node. */
  predicate Negative(plan: Plan, phase: string, node: string) {
    && plan.WriteStatus? && plan.input.phase == phase && plan.input.nodeName == node
    && plan.input.ready.status == CondFalse && plan.input.recon.status == CondFalse
  }

  /** Where a reconcile of a live VM ends before any machine is read: without the finalizer it adds
      it; an invalid spec fails; an unbound VM is given the node the scheduler places it on or stays
      pending; and a bound one whose runtime cannot be used, or whose machine cannot be read, is
      unknown. */
  lemma LiveExactly(vm: SmolVM, view: View, outcome: CallOutcome)
    requires !vm.deleting
    ensures var plan, p := Final(vm, view, outcome), Schedule(vm, view.nodes, view.vms, view.kube, view.now);
            && (plan == AddFinalizer <==> !vm.finalizer)
            && (vm.finalizer && SpecProblem(vm).Some? ==> Negative(plan, "Failed", vm.status.nodeName))
            && (vm.finalizer && SpecProblem(vm).None? && !vm.Bound() && !view.apiFails ==>
                  if p.Placed? && p.node != "" then Negative(plan, "Scheduled", p.node)
                  else Negative(plan, "Pending", "") && plan.input.scheduled.Some? && plan.input.scheduled.value.status == CondFalse)
            && (vm.finalizer && SpecProblem(vm).None? && vm.Bound() && (!Usable(vm.status.nodeName, view) || view.got.GetFailed?) ==>
                  Negative(plan, "Unknown", vm.status.nodeName))
  {
    hide Final, Negative, Usable, SpecProblem, Schedule;
    FinalizerExactly(vm, view, outcome);
    PlacementExactly(vm, view, outcome);
    TroubleExactly(vm, view, outcome);
  }

  lemma FinalizerExactly(vm: SmolVM, view: View, outcome: CallOutcome)
    requires !vm.deleting
    ensures Final(vm, view, outcome) == AddFinalizer <==> !vm.finalizer
    ensures vm.finalizer && SpecProblem(vm).Some? ==> Negative(Final(vm, view, outcome), "Failed", vm.status.nodeName)
  {
    if Decide(vm, view).Call? {
      NeverAdds(vm, Decide(vm, view).call, outcome);
    }
    if view.got.Found? {
      FoundWritten(vm, view.got.info);
    }
    hide RuntimeProblem, SpecProblem, Schedule, DecideFound, AfterCall, CreateRequestFor, PlacementText, SpecErrorText, MachineName;
  }

  lemma PlacementExactly(vm: SmolVM, view: View, outcome: CallOutcome)
    requires !vm.deleting
    ensures var plan, p := Final(vm, view, outcome), Schedule(vm, view.nodes, view.vms, view.kube, view.now);
            vm.finalizer && SpecProblem(vm).None? && !vm.Bound() && !view.apiFails ==>
              if p.Placed? && p.node != "" then Negative(plan, "Scheduled", p.node)
              else Negative(plan, "Pending", "") && plan.input.scheduled.Some? && plan.input.scheduled.value.status == CondFalse
  {
    hide SpecProblem, Schedule, DecideMachine, AfterCall, PlacementText, MachineName;
  }

  lemma TroubleExactly(vm: SmolVM, view: View, outcome: CallOutcome)
    requires !vm.deleting
    ensures vm.finalizer && SpecProblem(vm).None? && vm.Bound() && (!Usable(vm.status.nodeName, view) || view.got.GetFailed?) ==>
              Negative(Final(vm, view, outcome), "Unknown", vm.status.nodeName)
  {
    UsableIff(vm.status.nodeName, view);
    hide RuntimeProblem, Usable, SpecProblem, DecidePlacement, DecideFound, AfterCall, CreateRequestFor, MachineName;
  }

  lemma NeverAdds(vm: SmolVM, call: RuntimeCall, outcome: CallOutcome)
    ensures !AfterCall(vm, call, outcome).AddFinalizer?
  {
  }

  /** A spec is valid exactly when its pin, if it has one, is the node the VM is on, if it is on
      one; it names one source; no two ports share a host port; and every range is well formed. */
  lemma ValidExactly(vm: SmolVM)
    ensures SpecProblem(vm).None? <==>
            && (vm.spec.nodeName == "" || vm.status.nodeName in ["", vm.spec.nodeName])
            && (vm.spec.image != "" <==> vm.spec.from == "")
            && (forall i, j :: 0 <= i < j < |vm.spec.ports| ==> vm.spec.ports[i].hostPort != vm.spec.ports[j].hostPort)
            && (forall i :: 0 <= i < |vm.spec.allowedCIDRs| ==> vm.spec.allowedCIDRs[i].wellFormed)
  {
    assert HostPortsDistinct(vm.spec.ports) <==>
           forall i, j :: 0 <= i < j < |vm.spec.ports| ==> vm.spec.ports[i].hostPort != vm.spec.ports[j].hostPort;
  }

  /** The phase a machine in this state is shown in. */
  predicate PhaseFits(phase: string, m: MachineInfo) {
    && (phase == "Running" <==> m.state == "running") && (phase == "Stopped" <==> m.state == "stopped")
    && (phase == "Created" <==> m.state == "created") && phase in ["Running", "Stopped", "Created", "Unknown"]
  }

  /** A status written about a machine that was read carries that machine, in its phase, and calls
      the VM ready exactly when it runs. */
  lemma FoundWritten(vm: SmolVM, m: MachineInfo)
    ensures var plan := DecideFound(vm, m);
            plan.WriteStatus? || plan.Call?
    ensures var plan := DecideFound(vm, m);
            plan.WriteStatus? ==>
              plan.input.machine == Some(m) && PhaseFits(plan.input.phase, m) && (plan.input.ready.status == CondTrue <==> m.state == "running")
  {
    hide Drifted, Shrinks, Expands, ResizeRequestFor;
  }

  lemma CreatedWritten(vm: SmolVM, req: CreateRequest, outcome: CallOutcome)
    ensures var plan := AfterCall(vm, Create(req), outcome);
            plan.WriteStatus? && if outcome.CallOk? then plan.input.machine == Some(outcome.info) && PhaseFits(plan.input.phase, outcome.info)
                                 else plan.input.machine.None?
  {
  }

  lemma OtherWritten(vm: SmolVM, call: RuntimeCall, outcome: CallOutcome)
    requires !call.Create?
    ensures AfterCall(vm, call, outcome).WriteStatus? ==> AfterCall(vm, call, outcome).input.machine.None?
  {
  }

  /** The machine has been looked for: the VM is live, finalized, valid, bound, and its runtime fit to
      be asked. */
  predicate Asked(vm: SmolVM, view: View) {
    !vm.deleting && vm.finalizer && SpecProblem(vm).None? && vm.Bound() && Usable(vm.status.nodeName, view)
  }

  lemma AskedWritten(vm: SmolVM, view: View, outcome: CallOutcome)
    requires Asked(vm, view)
    ensures var plan := Final(vm, view, outcome);
            plan.WriteStatus? ==>
              && plan.input.machine ==
                 (if view.got.Found? && !Decide(vm, view).Call? then Some(view.got.info)
                  else if view.got.NotFound? && outcome.CallOk? then Some(outcome.info)
                  else None)
              && (plan.input.machine.Some? ==> PhaseFits(plan.input.phase, plan.input.machine.value))
  {
    UsableIff(vm.status.nodeName, view);
    hide RuntimeProblem, Usable, SpecProblem, DecidePlacement, DecideDelete, DecideFound, AfterCall, PhaseFits, CreateRequestFor;
    match view.got
    case NotFound => CreatedWritten(vm, CreateRequestFor(vm), outcome);
    case GetFailed(_) =>
    case Found(m) =>
      FoundWritten(vm, m);
      if DecideFound(vm, m).Call? {
        FoundCalls(vm, m);
        OtherWritten(vm, DecideFound(vm, m).call, outcome);
      }
  }

  lemma FoundCalls(vm: SmolVM, m: MachineInfo)
    ensures DecideFound(vm, m).Call? ==> !DecideFound(vm, m).call.Create? && !DecideFound(vm, m).call.Delete?
  {
    hide Drifted, Shrinks, Expands, ResizeRequestFor, MachineName;
  }

  lemma UnaskedWritten(vm: SmolVM, view: View, outcome: CallOutcome)
    requires !Asked(vm, view)
    ensures Final(vm, view, outcome).WriteStatus? ==> Final(vm, view, outcome).input.machine.None?
  {
    UsableIff(vm.status.nodeName, view);
    OtherWritten(vm, Delete(MachineName(vm)), outcome);
    hide RuntimeProblem, Usable, SpecProblem, Schedule, DecideFound, AfterCall, MachineName, CreateRequestFor, PlacementText;
  }

  /** The machine a status is written with is the one just read, or the one just created, and where
      there is one the phase is that machine's. */
  lemma MachineWritten(vm: SmolVM, view: View, outcome: CallOutcome)
    ensures var plan := Final(vm, view, outcome);
            plan.WriteStatus? ==>
              && plan.input.machine ==
                 (if Asked(vm, view) && view.got.Found? && !Decide(vm, view).Call? then Some(view.got.info)
                  else if Asked(vm, view) && view.got.NotFound? && outcome.CallOk? then Some(outcome.info)
                  else None)
              && (plan.input.machine.Some? ==> PhaseFits(plan.input.phase, plan.input.machine.value))
  {
    hide Final, Asked, Decide, PhaseFits;
    if Asked(vm, view) {
      AskedWritten(vm, view, outcome);
    } else {
      UnaskedWritten(vm, view, outcome);
    }
  }

  /** What a call asks for is what the spec its reconcile read asks for, field by field. */
  predicate AsSpecified(vm: SmolVM, view: View, call: RuntimeCall) {
    match call
    case Create(req) =>
      && req.name == MachineName(vm) && req.image == vm.spec.image && req.from == vm.spec.from
      && req.cpus == vm.spec.cpus && req.memoryMiB == vm.spec.memoryMiB
      && req.network == vm.spec.netEnabled && req.allowedCIDRs == vm.spec.allowedCIDRs
      && |req.ports| == |vm.spec.ports|
      && (forall i :: 0 <= i < |req.ports| ==> req.ports[i].host == vm.spec.ports[i].hostPort && req.ports[i].guest == vm.spec.ports[i].guestPort)
      && DiskAsked(req.storageGB, vm.spec.storageGiB) && DiskAsked(req.overlayGB, vm.spec.overlayGiB)
    case Resize(_, size) => DiskAsked(size.storageGB, vm.spec.storageGiB) && DiskAsked(size.overlayGB, vm.spec.overlayGiB)
    case EnsureRunning(_) => vm.spec.running && view.got.Found? && view.got.info.state != "running"
    case Stop(_) => !vm.spec.running && view.got.Found? && view.got.info.state == "running"
    case Delete(_) => vm.deleting
  }

  /** A size is passed on exactly when the spec asks for a positive one. */
  predicate DiskAsked(asked: Option<Int64>, gib: Int64) {
    (asked.Some? <==> gib > 0) && (asked.Some? ==> asked.value == gib)
  }

  lemma DecidesAsSpecified(vm: SmolVM, view: View)
    ensures Decide(vm, view).Call? ==> AsSpecified(vm, view, Decide(vm, view).call)
  {
    DecideFacts(vm, view);
    hide RuntimeProblem, SpecProblem, Schedule, RuntimeChecked, Drifted, Shrinks, Expands, MachineName;
  }

  // ---- Create and resize ------------------------------------------------------------

  /** A runtime that does what a create request says. */
  function Echo(req: CreateRequest, state: string, pid: Option<Int32>): MachineInfo {
    MachineInfo(req.name, state, req.cpus, req.memoryMiB, pid, req.ports, req.network, req.storageGB, req.overlayGB)
  }

  function Resized(m: MachineInfo, size: ResizeRequest): MachineInfo {
    m.(storageGB := if size.storageGB.Some? then size.storageGB else m.storageGB,
       overlayGB := if size.overlayGB.Some? then size.overlayGB else m.overlayGB)
  }

  /** Create round trip: a machine that echoes the request never blocks its own VM, and reading
      its ports back gives the spec's ports in order. */
  lemma CreateRoundTrip(vm: SmolVM, state: string, pid: Option<Int32>)
    ensures var m := Echo(CreateRequestFor(vm), state, pid);
            && !Drifted(vm.spec, m) && !Shrinks(vm.spec, m) && !Expands(vm.spec, m)
            && PortsFromRuntime(m.ports) == vm.spec.ports
            && (Matches(vm.spec, m) <==> (state == "running" <==> vm.spec.running))
  {
    var m := Echo(CreateRequestFor(vm), state, pid);
    assert SpecPairs(vm.spec.ports) == RuntimePairs(m.ports);
  }

  predicate NoSmaller(before: Option<Int64>, after: Option<Int64>) {
    before.Some? ==> after.Some? && before.value <= after.value
  }

  /** No resize lowers a reported disk, each strictly raises one, and afterwards the spec asks
      for neither a shrink nor an expansion. */
  lemma ResizeGrows(spec: Spec, m: MachineInfo)
    requires ResizeAllowed(spec, m)
    ensures var r := Resized(m, ResizeRequestFor(spec));
            && NoSmaller(m.storageGB, r.storageGB) && NoSmaller(m.overlayGB, r.overlayGB)
            && (|| (m.storageGB.Some? && r.storageGB.Some? && m.storageGB.value < r.storageGB.value)
                || (m.overlayGB.Some? && r.overlayGB.Some? && m.overlayGB.value < r.overlayGB.value))
            && !Shrinks(spec, r) && !Expands(spec, r)
            && Drifted(spec, r) == Drifted(spec, m)
  {
  }
}
