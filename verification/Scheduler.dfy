/** Choosing a node: eligibility, reject reasons, and first fit over the node list. */
module Scheduler {
  import opened Types
  import opened Conditions
  import opened Capacity

  const HEARTBEAT_LIMIT: int := 120_000_000_000
  const PROTOCOL := "v1alpha1"

  datatype Reject = NotReady | SelectorMismatch | KubeNodeMissing | Cordoned | KubeNotReady
                  | Short(dimension: Dimension) | PortConflict

  datatype Rejection = Rejection(node: string, reason: Reject)

  datatype Placement = Placed(node: string) | NoNodes | NoneFit(rejections: seq<Rejection>)
                     | PinMissing | PinRejected(reason: Reject)

  predicate FreshHeartbeat(st: NodeStatus, now: Time) {
    st.heartbeat.Some? && now - st.heartbeat.value <= HEARTBEAT_LIMIT
  }

  predicate ConditionsUp(st: NodeStatus) {
    && HasCondition(st.conditions, "Ready", CondTrue)
    && HasCondition(st.conditions, "KVMAvailable", CondTrue)
    && HasCondition(st.conditions, "RuntimeReady", CondTrue)
    && HasCondition(st.conditions, "Schedulable", CondTrue)
  }

  predicate Eligible(st: NodeStatus, now: Time) {
    && ConditionsUp(st)
    && (st.protocolVersion == "" || st.protocolVersion == PROTOCOL)
    && FreshHeartbeat(st, now)
    && st.endpoint.podIP != "" && st.endpoint.port > 0
  }

  /** A label that is missing reads as the empty string. */
  predicate MatchesSelector(labels: map<string, string>, selector: map<string, string>) {
    forall k :: k in selector ==> (if k in labels then labels[k] else "") == selector[k]
  }

  function NodeReject(node: SmolVMNode, vm: SmolVM, bound: seq<SmolVM>, kube: map<string, KubeNode>, now: Time): Option<Reject> {
    if !Eligible(node.status, now) then Some(NotReady)
    else if !MatchesSelector(node.labels, vm.spec.nodeSelector) then Some(SelectorMismatch)
    else if node.name !in kube then Some(KubeNodeMissing)
    else if kube[node.name].unschedulable then Some(Cordoned)
    else if !KubeNodeReady(kube[node.name].conditions) then Some(KubeNotReady)
    else if Shortage(node, vm, bound).Some? then Some(Short(Shortage(node, vm, bound).value))
    else if PortTaken(node.name, vm, bound) then Some(PortConflict)
    else None
  }

  // ---- What the tests mean, on the fields themselves ---------------------------------

  /** The node agent has reported the node up within two minutes, in a protocol the controller
      speaks, with an endpoint to reach it at. */
  predicate ReportedUp(st: NodeStatus, now: Time) {
    && SaidTrue(st.conditions, "Ready") && SaidTrue(st.conditions, "KVMAvailable")
    && SaidTrue(st.conditions, "RuntimeReady") && SaidTrue(st.conditions, "Schedulable")
    && st.protocolVersion in ["", "v1alpha1"]
    && st.heartbeat.Some? && now - st.heartbeat.value <= 120_000_000_000
    && st.endpoint.podIP != "" && st.endpoint.port > 0
  }

  predicate SaidTrue(cs: seq<Condition>, t: string) { exists i :: 0 <= i < |cs| && cs[i].typ == t && cs[i].status == CondTrue }

  /** Every selected label has the selected value; a missing label counts as empty. */
  predicate LabelsFit(labels: map<string, string>, selector: map<string, string>) {
    forall k :: k in selector ==> if k in labels then labels[k] == selector[k] else selector[k] == ""
  }

  /** The Kubernetes node is there, takes work, and its first Ready condition is True. */
  predicate KubeTakes(kube: map<string, KubeNode>, n: string) {
    && n in kube && !kube[n].unschedulable
    && exists i :: 0 <= i < |kube[n].conditions| && FirstReadyAt(kube[n].conditions, i) && kube[n].conditions[i].status == CondTrue
  }

  predicate FirstReadyAt(cs: seq<KubeCondition>, i: nat)
    requires i < |cs|
  {
    cs[i].typ == "Ready" && forall j :: 0 <= j < i ==> cs[j].typ != "Ready"
  }

  lemma EligibleExactly(st: NodeStatus, now: Time)
    ensures Eligible(st, now) <==> ReportedUp(st, now)
  {
    assert forall t :: HasCondition(st.conditions, t, CondTrue) <==> SaidTrue(st.conditions, t);
  }

  lemma SelectorExactly(labels: map<string, string>, selector: map<string, string>)
    ensures MatchesSelector(labels, selector) <==> LabelsFit(labels, selector)
  {
  }

  lemma {:induction false} FirstReadyExactly(cs: seq<KubeCondition>)
    ensures KubeNodeReady(cs) <==> exists i :: 0 <= i < |cs| && FirstReadyAt(cs, i) && cs[i].status == CondTrue
  {
    if cs != [] && cs[0].typ == "Ready" {
      assert FirstReadyAt(cs, 0);
    } else if cs != [] {
      FirstReadyExactly(cs[1..]);
      if i :| 0 <= i < |cs[1..]| && FirstReadyAt(cs[1..], i) && cs[1..][i].status == CondTrue {
        assert FirstReadyAt(cs, i + 1) && cs[i + 1].status == CondTrue;
      }
      if i :| 0 <= i < |cs| && FirstReadyAt(cs, i) && cs[i].status == CondTrue {
        assert FirstReadyAt(cs[1..], i - 1) && cs[1..][i - 1].status == CondTrue;
      }
    }
  }

  /** The reject reason is the first of these that fails. */
  lemma RejectMeaning(node: SmolVMNode, vm: SmolVM, bound: seq<SmolVM>, kube: map<string, KubeNode>, now: Time)
    ensures var r := NodeReject(node, vm, bound, kube, now);
            && (r == Some(NotReady) <==> !ReportedUp(node.status, now))
            && (r == Some(SelectorMismatch) <==> ReportedUp(node.status, now) && !LabelsFit(node.labels, vm.spec.nodeSelector))
            && (r in {Some(KubeNodeMissing), Some(Cordoned), Some(KubeNotReady)} <==>
                ReportedUp(node.status, now) && LabelsFit(node.labels, vm.spec.nodeSelector) && !KubeTakes(kube, node.name))
            && (r.None? <==> ReportedUp(node.status, now) && LabelsFit(node.labels, vm.spec.nodeSelector) && KubeTakes(kube, node.name)
                             && Shortage(node, vm, bound).None? && !PortTaken(node.name, vm, bound))
  {
    EligibleExactly(node.status, now);
    SelectorExactly(node.labels, vm.spec.nodeSelector);
    if node.name in kube {
      FirstReadyExactly(kube[node.name].conditions);
    }
    hide Eligible, ReportedUp, MatchesSelector, LabelsFit, PortTaken, Shortage, KubeNodeReady, FirstReadyAt;
  }

  // ---- Bound VMs and placement ------------------------------------------------------

  predicate CountsAsBound(item: SmolVM, pending: SmolVM) {
    item.uid != pending.uid && item.Bound() && !item.deleting
  }

  /** The VMs whose requests count: bound, not being deleted, and not the pending one. */
  function BoundVMs(vms: seq<SmolVM>, pending: SmolVM): (out: seq<SmolVM>)
    ensures forall vm :: vm in out <==> vm in vms && CountsAsBound(vm, pending)
    ensures |out| <= |vms|
  {
    if vms == [] then []
    else
      var last := vms[|vms| - 1];
      BoundVMs(vms[..|vms| - 1], pending) + (if CountsAsBound(last, pending) then [last] else [])
  }

  function FindNode(nodes: seq<SmolVMNode>, name: string): (r: Option<SmolVMNode>)
    ensures r.Some? ==> r.value in nodes && r.value.name == name
  {
    if nodes == [] then None
    else if nodes[0].name == name then Some(nodes[0])
    else FindNode(nodes[1..], name)
  }

  function FirstFit(nodes: seq<SmolVMNode>, vm: SmolVM, bound: seq<SmolVM>, kube: map<string, KubeNode>, now: Time): Placement {
    if nodes == [] then NoneFit([])
    else match NodeReject(nodes[0], vm, bound, kube, now)
      case None => Placed(nodes[0].name)
      case Some(reason) =>
        match FirstFit(nodes[1..], vm, bound, kube, now)
        case NoneFit(rest) => NoneFit([Rejection(nodes[0].name, reason)] + rest)
        case other => other
  }

  function Schedule(vm: SmolVM, nodes: seq<SmolVMNode>, vms: seq<SmolVM>, kube: map<string, KubeNode>, now: Time): Placement {
    var bound := BoundVMs(vms, vm);
    if vm.spec.nodeName != "" then
      match FindNode(nodes, vm.spec.nodeName)
      case None => PinMissing
      case Some(node) =>
        match NodeReject(node, vm, bound, kube, now)
        case Some(reason) => PinRejected(reason)
        case None => Placed(node.name)
    else if nodes == [] then NoNodes
    else FirstFit(nodes, vm, bound, kube, now)
  }

  /** `i` is the first node in list order with no reject reason. */
  ghost predicate FirstAccepted(i: int, nodes: seq<SmolVMNode>, vm: SmolVM, bound: seq<SmolVM>, kube: map<string, KubeNode>, now: Time) {
    && 0 <= i < |nodes| && NodeReject(nodes[i], vm, bound, kube, now).None?
    && forall j :: 0 <= j < i ==> NodeReject(nodes[j], vm, bound, kube, now).Some?
  }

  ghost predicate AllRejected(rs: seq<Rejection>, nodes: seq<SmolVMNode>, vm: SmolVM, bound: seq<SmolVM>, kube: map<string, KubeNode>, now: Time) {
    && |rs| == |nodes|
    && forall j :: 0 <= j < |nodes| ==>
         rs[j].node == nodes[j].name && NodeReject(nodes[j], vm, bound, kube, now) == Some(rs[j].reason)
  }

  lemma {:induction false} FirstFitExact(nodes: seq<SmolVMNode>, vm: SmolVM, bound: seq<SmolVM>, kube: map<string, KubeNode>, now: Time)
    ensures var r := FirstFit(nodes, vm, bound, kube, now);
            || (r.Placed? && exists i :: FirstAccepted(i, nodes, vm, bound, kube, now) && r.node == nodes[i].name)
            || (r.NoneFit? && AllRejected(r.rejections, nodes, vm, bound, kube, now))
  {
    hide NodeReject;
    if nodes != [] && NodeReject(nodes[0], vm, bound, kube, now).Some? {
      FirstFitExact(nodes[1..], vm, bound, kube, now);
      var r, q := FirstFit(nodes, vm, bound, kube, now), FirstFit(nodes[1..], vm, bound, kube, now);
      if q.Placed? {
        var i :| FirstAccepted(i, nodes[1..], vm, bound, kube, now) && q.node == nodes[1..][i].name;
        assert FirstAccepted(i + 1, nodes, vm, bound, kube, now);
      }
    } else if nodes != [] {
      assert FirstAccepted(0, nodes, vm, bound, kube, now);
    }
  }

  /** Scheduling is exact. Without a pin the answer is the first listed node with no reject
      reason, and there is no answer exactly when every node is rejected, with one reason per
      node in order; with a pin it is the pinned node exactly when that node has no reject reason,
      and otherwise says which reason, or that the node is not there. */
  lemma ScheduleExact(vm: SmolVM, nodes: seq<SmolVMNode>, vms: seq<SmolVM>, kube: map<string, KubeNode>, now: Time, bound: seq<SmolVM>)
    requires bound == BoundVMs(vms, vm)
    ensures var r := Schedule(vm, nodes, vms, kube, now);
            && (vm.spec.nodeName == "" ==>
                  && (r.Placed? <==> exists i :: FirstAccepted(i, nodes, vm, bound, kube, now))
                  && (r.Placed? ==> exists i :: FirstAccepted(i, nodes, vm, bound, kube, now) && r.node == nodes[i].name)
                  && (r.NoNodes? <==> nodes == [])
                  && (r.NoneFit? ==> AllRejected(r.rejections, nodes, vm, bound, kube, now))
                  && !r.PinMissing? && !r.PinRejected?)
            && (vm.spec.nodeName != "" ==>
                  && !r.NoNodes? && !r.NoneFit?
                  && match FindNode(nodes, vm.spec.nodeName)
                     case None => r == PinMissing
                     case Some(pin) =>
                       && (r.Placed? <==> NodeReject(pin, vm, bound, kube, now).None?)
                       && (r.Placed? ==> r.node == vm.spec.nodeName)
                       && (r.PinRejected? ==> NodeReject(pin, vm, bound, kube, now) == Some(r.reason))
                       && !r.PinMissing?)
            && (r.Placed? ==> exists node :: node in nodes && node.name == r.node
                                             && NodeReject(node, vm, bound, kube, now).None?)
  {
    FirstFitExact(nodes, vm, bound, kube, now);
    var r := Schedule(vm, nodes, vms, kube, now);
    if vm.spec.nodeName == "" && r.Placed? {
      var i :| FirstAccepted(i, nodes, vm, bound, kube, now) && r.node == nodes[i].name;
      assert nodes[i] in nodes;
    } else if vm.spec.nodeName == "" {
      forall i ensures !FirstAccepted(i, nodes, vm, bound, kube, now) {
        if 0 <= i < |nodes| {
          assert NodeReject(nodes[i], vm, bound, kube, now) == Some(r.rejections[i].reason);
        }
      }
    }
  }

  // ---- The loops --------------------------------------------------------------------

  method CollectBound(vms: seq<SmolVM>, pending: SmolVM) returns (out: seq<SmolVM>)
    ensures out == BoundVMs(vms, pending)
  {
    out := [];
    for i := 0 to |vms|
      invariant out == BoundVMs(vms[..i], pending)
    {
      assert vms[..i + 1][..i] == vms[..i];
      if vms[i].uid == pending.uid || vms[i].status.nodeName == "" || vms[i].deleting {
        continue;
      }
      out := out + [vms[i]];
    }
    assert vms[..|vms|] == vms;
  }

  method RejectReason(node: SmolVMNode, vm: SmolVM, bound: seq<SmolVM>, kube: map<string, KubeNode>, now: Time) returns (r: Option<Reject>)
    ensures r == NodeReject(node, vm, bound, kube, now)
    ensures r.None? <==> ReportedUp(node.status, now) && LabelsFit(node.labels, vm.spec.nodeSelector) && KubeTakes(kube, node.name)
                         && Shortage(node, vm, bound).None? && !PortTaken(node.name, vm, bound)
  {
    RejectMeaning(node, vm, bound, kube, now);
    hide Shortage, PortTaken, ReportedUp, LabelsFit, KubeTakes, Eligible, MatchesSelector, KubeNodeReady;
    if !Eligible(node.status, now) {
      return Some(NotReady);
    }
    if !MatchesSelector(node.labels, vm.spec.nodeSelector) {
      return Some(SelectorMismatch);
    }
    if node.name !in kube {
      return Some(KubeNodeMissing);
    }
    if kube[node.name].unschedulable {
      return Some(Cordoned);
    }
    if !KubeNodeReady(kube[node.name].conditions) {
      return Some(KubeNotReady);
    }
    var short := ResourceFitReason(node, vm, bound);
    if short.Some? {
      return Some(Short(short.value));
    }
    var taken := HostPortConflict(node.name, vm, bound);
    return if taken then Some(PortConflict) else None;
  }

  method PickNode(vm: SmolVM, nodes: seq<SmolVMNode>, vms: seq<SmolVM>, kube: map<string, KubeNode>, now: Time) returns (r: Placement)
    ensures r == Schedule(vm, nodes, vms, kube, now)
  {
    hide NodeReject, BoundVMs, FindNode;
    var bound := CollectBound(vms, vm);
    if vm.spec.nodeName != "" {
      var found := FindNode(nodes, vm.spec.nodeName);
      if found.None? {
        return PinMissing;
      }
      var reason := RejectReason(found.value, vm, bound, kube, now);
      if reason.Some? {
        return PinRejected(reason.value);
      }
      return Placed(found.value.name);
    }
    var reasons: seq<Rejection> := [];
    for i := 0 to |nodes|
      invariant AllRejected(reasons, nodes[..i], vm, bound, kube, now)
      invariant FirstFit(nodes, vm, bound, kube, now) == Resumed(reasons, FirstFit(nodes[i..], vm, bound, kube, now))
    {
      var reason := RejectReason(nodes[i], vm, bound, kube, now);
      assert nodes[i..][0] == nodes[i] && nodes[i..][1..] == nodes[i + 1..];
      if reason.Some? {
        ResumedStep(reasons, Rejection(nodes[i].name, reason.value), FirstFit(nodes[i + 1..], vm, bound, kube, now));
        reasons := reasons + [Rejection(nodes[i].name, reason.value)];
        continue;
      }
      return Placed(nodes[i].name);
    }
    assert nodes[|nodes|..] == [];
    if |reasons| == 0 {
      return NoNodes;
    }
    return NoneFit(reasons);
  }

  /** The outcome of a scan that has already rejected some nodes. */
  ghost function Resumed(reasons: seq<Rejection>, rest: Placement): Placement {
    match rest
    case NoneFit(more) => NoneFit(reasons + more)
    case other => other
  }

  lemma ResumedStep(reasons: seq<Rejection>, r: Rejection, rest: Placement)
    ensures Resumed(reasons, Resumed([r], rest)) == Resumed(reasons + [r], rest)
  {
    if rest.NoneFit? {
      assert reasons + ([r] + rest.rejections) == reasons + [r] + rest.rejections;
    }
  }
}
