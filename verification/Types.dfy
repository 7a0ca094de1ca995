/** The records the controller and the node agent exchange: SmolVM and SmolVMNode
    objects, the runtime API's machine records and requests, and Kubernetes nodes. */
module Types {

  datatype Option<+T> = None | Some(value: T)

  type Int32 = x: int | -0x8000_0000 <= x < 0x8000_0000
  type Int64 = x: int | -0x8000_0000_0000_0000 <= x < 0x8000_0000_0000_0000

  /** Instants, in nanoseconds. */
  type Time = int

  datatype ConditionStatus = CondTrue | CondFalse | CondUnknown

  datatype Condition = Condition(
    typ: string, status: ConditionStatus, reason: string, message: string,
    observedGeneration: int, lastTransition: Time)

  /** A port mapping as the SmolVM spec and status write it. */
  datatype VMPort = VMPort(hostPort: Int32, guestPort: Int32)

  /** A port mapping as the runtime API writes it. */
  datatype PortSpec = PortSpec(host: Int32, guest: Int32)

  /** An egress range; `wellFormed` is the verdict of the CIDR parser on `text`. */
  datatype CIDR = CIDR(text: string, wellFormed: bool)

  datatype Spec = Spec(
    running: bool, nodeName: string, nodeSelector: map<string, string>,
    image: string, from: string,
    cpus: Int32, memoryMiB: Int32,
    storageGiB: Int64, overlayGiB: Int64,
    netEnabled: bool, allowedCIDRs: seq<CIDR>, ports: seq<VMPort>)

  datatype Status = Status(
    phase: string, nodeName: string, machineName: string,
    runtimePID: Option<Int32>, network: bool, ports: seq<VMPort>,
    storageGiB: Option<Int64>, overlayGiB: Option<Int64>,
    observedGeneration: int, conditions: seq<Condition>)

  const EMPTY_STATUS := Status("", "", "", None, false, [], None, None, 0, [])

  /** A SmolVM object. `tag` is the ten-character digest of `uid` that machine names end in. */
  datatype SmolVM = SmolVM(
    namespace: string, name: string, uid: string, tag: string, generation: int,
    deleting: bool, finalizer: bool, annotations: map<string, string>,
    spec: Spec, status: Status)
  {
    predicate Bound() { status.nodeName != "" }

    predicate ForceDelete() {
      FORCE_DELETE_ANNOTATION in annotations && annotations[FORCE_DELETE_ANNOTATION] == "true"
    }
  }

  const FORCE_DELETE_ANNOTATION := "vm.smolvm.dev/force-delete-local-state"

  datatype MachineInfo = MachineInfo(
    name: string, state: string, cpus: Int32, memoryMiB: Int32, pid: Option<Int32>,
    ports: seq<PortSpec>, network: bool, storageGB: Option<Int64>, overlayGB: Option<Int64>)

  datatype CreateRequest = CreateRequest(
    name: string, cpus: Int32, memoryMiB: Int32, ports: seq<PortSpec>, network: bool,
    storageGB: Option<Int64>, overlayGB: Option<Int64>,
    allowedCIDRs: seq<CIDR>, image: string, from: string)

  datatype ResizeRequest = ResizeRequest(storageGB: Option<Int64>, overlayGB: Option<Int64>)

  datatype Endpoint = Endpoint(podName: string, podNamespace: string, podIP: string, port: Int32)

  datatype Allocatable = Allocatable(cpus: Int32, memoryMiB: Int64, storageGiB: Int64)

  datatype NodeStatus = NodeStatus(
    nodeUID: string, runtimeVersion: string, protocolVersion: string, heartbeat: Option<Time>,
    endpoint: Endpoint, allocatable: Allocatable, conditions: seq<Condition>)

  datatype SmolVMNode = SmolVMNode(name: string, labels: map<string, string>, status: NodeStatus)

  datatype KubeCondition = KubeCondition(typ: string, status: ConditionStatus)

  datatype KubeNode = KubeNode(
    uid: string, labels: map<string, string>, unschedulable: bool, conditions: seq<KubeCondition>)

  /** The Ready condition that comes first decides. */
  predicate KubeNodeReady(conditions: seq<KubeCondition>) {
    conditions != [] &&
    if conditions[0].typ == "Ready" then conditions[0].status == CondTrue
    else KubeNodeReady(conditions[1..])
  }

  /** The name a machine keeps for its whole life. */
  function StableMachineName(vm: SmolVM): string {
    "k8s-" + vm.namespace + "-" + vm.name + "-" + vm.tag
  }

  function MachineName(vm: SmolVM): string {
    if vm.status.machineName == "" then StableMachineName(vm) else vm.status.machineName
  }

  predicate ControllerName(name: string) { "k8s-" <= name }

  /** The last ten characters of a machine name are the digest, so VMs with different
      digests have different machine names even where namespaces and names contain dashes. */
  lemma DistinctTagsDistinctNames(a: SmolVM, b: SmolVM)
    requires |a.tag| == |b.tag|
    ensures StableMachineName(a) == StableMachineName(b) ==> a.tag == b.tag
    ensures ControllerName(StableMachineName(a)) && StableMachineName(a) != ""
  {
    var na, nb := StableMachineName(a), StableMachineName(b);
    assert na[|na| - |a.tag|..] == a.tag;
    assert nb[|nb| - |b.tag|..] == b.tag;
  }
}
