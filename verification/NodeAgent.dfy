/** The node agent's report: what it publishes about its node, and that the controller's
    eligibility test reads it back as meant. */
module NodeAgent {
  import opened Types
  import opened Conditions
  import opened StatusWriter
  import opened Scheduler

  /** What the agent finds on its node. */
  datatype Probes = Probes(socket: bool, stateDir: bool, kvm: bool)

  datatype Health = Health(ok: bool, kvmAvailable: bool, socketReady: bool, stateReady: bool, message: string)

  const SOCKET_MISSING := "smolvm socket unavailable"
  const STATE_MISSING := "state directory unavailable"
  const KVM_MISSING := "KVM unavailable"

  function JoinParts(parts: seq<string>): string {
    if parts == [] then "" else if |parts| == 1 then parts[0] else parts[0] + "; " + JoinParts(parts[1..])
  }

  function Missing(p: Probes): seq<string> {
    (if p.socket then [] else [SOCKET_MISSING]) + (if p.stateDir then [] else [STATE_MISSING]) + (if p.kvm then [] else [KVM_MISSING])
  }

  method CheckHealth(p: Probes) returns (h: Health)
    ensures h == Health(p.socket && p.stateDir && p.kvm, p.kvm, p.socket, p.stateDir,
                        if Missing(p) == [] then "runtime healthy" else JoinParts(Missing(p)))
    ensures h.ok <==> Missing(p) == []
  {
    var ok := p.socket && p.stateDir && p.kvm;
    var message := "runtime healthy";
    if !ok {
      var missing: seq<string> := [];
      if !p.socket {
        missing := missing + [SOCKET_MISSING];
      }
      if !p.stateDir {
        missing := missing + [STATE_MISSING];
      }
      if !p.kvm {
        missing := missing + [KVM_MISSING];
      }
      message := JoinParts(missing);
      assert missing == Missing(p);
    }
    return Health(ok, p.kvm, p.socket, p.stateDir, message);
  }

  function CondOf(ok: bool): ConditionStatus { if ok then CondTrue else CondFalse }

  /** What one report goes by; `kube` is None when the Kubernetes node could not be read. */
  datatype Findings = Findings(kube: Option<KubeNode>, allocatable: Allocatable, health: Health, now: Time)

  predicate KubeUp(f: Findings) { f.kube.Some? && KubeNodeReady(f.kube.value.conditions) }

  /** The four verdicts of a report, in the order they are set. */
  function Verdicts(f: Findings): seq<Setting> {
    [Setting("Ready", Verdict(CondOf(f.health.ok), "Reported", f.health.message)),
     Setting("KVMAvailable", Verdict(CondOf(f.health.kvmAvailable), "Observed", "KVM device availability observed")),
     Setting("RuntimeReady", Verdict(CondOf(f.health.socketReady), "Reported", f.health.message)),
     Setting("Schedulable", Verdict(CondOf(KubeUp(f) && f.health.ok), "Reported", "node is schedulable for SmolVM"))]
  }

  /** The status a report leaves, given the one it read. */
  function Reported(prev: NodeStatus, uid: string, version: string, endpoint: Endpoint, f: Findings): NodeStatus {
    NodeStatus(uid, version, PROTOCOL, Some(f.now), endpoint, f.allocatable, SetAll(prev.conditions, Verdicts(f), None, f.now))
  }

  class Agent {
    const version: string
    const endpoint: Endpoint
    var nodeUID: string

    constructor (version: string, endpoint: Endpoint)
      ensures this.version == version && this.endpoint == endpoint && nodeUID == ""
    {
      this.version, this.endpoint, nodeUID := version, endpoint, "";
    }

    /** Rewrites the latest status field by field; a failed read of the Kubernetes node keeps
        the identity last seen. */
    method Report(latest: NodeStatus, f: Findings) returns (st: NodeStatus)
      modifies this
      ensures nodeUID == if f.kube.Some? then f.kube.value.uid else old(nodeUID)
      ensures st == Reported(latest, nodeUID, version, endpoint, f)
      ensures st.nodeUID == nodeUID && st.runtimeVersion == version && st.protocolVersion == "v1alpha1"
      ensures st.heartbeat == Some(f.now) && st.endpoint == endpoint
      ensures st.allocatable.cpus == f.allocatable.cpus && st.allocatable.memoryMiB == f.allocatable.memoryMiB
      ensures st.allocatable.storageGiB == f.allocatable.storageGiB
    {
      hide SetCond;
      if f.kube.Some? {
        nodeUID := f.kube.value.uid;
      }
      st := latest;
      st := st.(nodeUID := nodeUID);
      st := st.(runtimeVersion := version);
      st := st.(protocolVersion := PROTOCOL);
      st := st.(heartbeat := Some(f.now));
      st := st.(endpoint := endpoint);
      st := st.(allocatable := f.allocatable);
      var h := f.health;
      var ready := f.kube.Some?;
      if ready {
        ready := FirstReady(f.kube.value.conditions);
      }
      var conditions := new ConditionList(st.conditions);
      conditions.Set("Ready", Verdict(CondOf(h.ok), "Reported", h.message), None, f.now);
      conditions.Set("KVMAvailable", Verdict(CondOf(h.kvmAvailable), "Observed", "KVM device availability observed"), None, f.now);
      conditions.Set("RuntimeReady", Verdict(CondOf(h.socketReady), "Reported", h.message), None, f.now);
      conditions.Set("Schedulable", Verdict(CondOf(ready && h.ok), "Reported", "node is schedulable for SmolVM"), None, f.now);
      FourSets(latest.conditions, Verdicts(f), f.now);
      st := st.(conditions := conditions.items);
    }

    method FirstReady(conditions: seq<KubeCondition>) returns (ready: bool)
      ensures ready == KubeNodeReady(conditions)
    {
      for i := 0 to |conditions|
        invariant KubeNodeReady(conditions) == KubeNodeReady(conditions[i..])
      {
        if conditions[i].typ == "Ready" {
          return conditions[i].status == CondTrue;
        }
      }
      return false;
    }
  }

  lemma FourSets(cs: seq<Condition>, vs: seq<Setting>, now: Time)
    requires |vs| == 4
    ensures SetAll(cs, vs, None, now) ==
            SetCond(SetCond(SetCond(SetCond(cs, vs[0].typ, vs[0].verdict, None, now), vs[1].typ, vs[1].verdict, None, now),
                            vs[2].typ, vs[2].verdict, None, now), vs[3].typ, vs[3].verdict, None, now)
  {
    hide SetCond;
    assert SetAll(cs, vs[..1], None, now) == SetCond(cs, vs[0].typ, vs[0].verdict, None, now) by {
      assert vs[..1][..0] == [];
    }
    assert vs[..2][..1] == vs[..1] && vs[..3][..2] == vs[..2];
    assert SetAll(cs, vs[..2], None, now) == SetCond(SetAll(cs, vs[..1], None, now), vs[1].typ, vs[1].verdict, None, now);
    assert SetAll(cs, vs[..3], None, now) == SetCond(SetAll(cs, vs[..2], None, now), vs[2].typ, vs[2].verdict, None, now);
  }

  // ---- Reading a report back --------------------------------------------------------

  /** An entry of the type after the first one says `status`: sets never reach it. */
  predicate Shadowed(cs: seq<Condition>, typ: string, status: ConditionStatus) {
    exists i, j :: 0 <= i < j < |cs| && cs[i].typ == typ && cs[j].typ == typ && cs[j].status == status
  }

  /** What a set does to "some entry of this type says so". */
  lemma HasAfterSet(cs: seq<Condition>, typ: string, v: Verdict, g: Option<int>, now: Time, status: ConditionStatus)
    ensures var r := SetCond(cs, typ, v, g, now);
            && (HasCondition(r, typ, status) <==> v.status == status || Shadowed(cs, typ, status))
            && (Shadowed(r, typ, status) <==> Shadowed(cs, typ, status))
  {
    hide SetCond;
    var i, r := FirstOf(cs, typ), SetCond(cs, typ, v, g, now);
    SetAt(cs, typ, v, g, now, i);
    assert r[i].typ == typ && r[i].status == v.status;
    forall j | 0 <= j < |r| && r[j].typ == typ && j != i ensures i < j < |cs| && cs[j] == r[j] {}
    if Shadowed(cs, typ, status) {
      var h, j :| 0 <= h < j < |cs| && cs[h].typ == typ && cs[j].typ == typ && cs[j].status == status;
      assert i < j && r[j] == cs[j];
    }
  }

  lemma HasAfterOtherSet(cs: seq<Condition>, typ: string, v: Verdict, g: Option<int>, now: Time, other: string, status: ConditionStatus)
    requires other != typ
    ensures var r := SetCond(cs, typ, v, g, now);
            && (HasCondition(r, other, status) <==> HasCondition(cs, other, status))
            && (Shadowed(r, other, status) <==> Shadowed(cs, other, status))
  {
    hide SetCond;
    var i, r := FirstOf(cs, typ), SetCond(cs, typ, v, g, now);
    SetAt(cs, typ, v, g, now, i);
    assert SameBut(cs, r, i, typ);
    OnlyOther(cs, r, i, typ, other, status);
  }

  /** The lists agree except at `i`, where each has an entry of this type or none. */
  predicate SameBut(cs: seq<Condition>, r: seq<Condition>, i: nat, typ: string) {
    && i < |r| && |cs| <= |r| <= |cs| + 1 && (|cs| < |r| ==> i == |cs|)
    && r[i].typ == typ && (i < |cs| ==> cs[i].typ == typ)
    && forall j :: 0 <= j < |cs| && j != i ==> r[j] == cs[j]
  }

  lemma OnlyOther(cs: seq<Condition>, r: seq<Condition>, i: nat, typ: string, other: string, status: ConditionStatus)
    requires SameBut(cs, r, i, typ) && other != typ
    ensures HasCondition(r, other, status) <==> HasCondition(cs, other, status)
    ensures Shadowed(r, other, status) <==> Shadowed(cs, other, status)
  {
    assert forall j :: 0 <= j < |r| && r[j].typ == other ==> j < |cs| && cs[j] == r[j];
    assert forall j :: 0 <= j < |cs| && cs[j].typ == other ==> r[j] == cs[j];
  }

  function FirstOf(cs: seq<Condition>, typ: string): (i: nat)
    ensures i <= |cs| && (i < |cs| ==> cs[i].typ == typ) && forall j :: 0 <= j < i ==> cs[j].typ != typ
  {
    if cs == [] || cs[0].typ == typ then 0 else 1 + FirstOf(cs[1..], typ)
  }

  lemma {:induction false} HasAfterAll(cs: seq<Condition>, vs: seq<Setting>, now: Time, typ: string, status: ConditionStatus)
    requires DistinctTypes(vs)
    ensures var r := SetAll(cs, vs, None, now);
            && (forall i :: 0 <= i < |vs| && vs[i].typ == typ ==>
                  (HasCondition(r, typ, status) <==> vs[i].verdict.status == status || Shadowed(cs, typ, status)))
            && ((forall i :: 0 <= i < |vs| ==> vs[i].typ != typ) ==>
                  (HasCondition(r, typ, status) <==> HasCondition(cs, typ, status)))
            && (Shadowed(r, typ, status) <==> Shadowed(cs, typ, status))
  {
    hide SetCond, HasCondition, Shadowed;
    if vs != [] {
      var n := |vs| - 1;
      var mid := SetAll(cs, vs[..n], None, now);
      HasAfterAll(cs, vs[..n], now, typ, status);
      if vs[n].typ == typ {
        HasAfterSet(mid, typ, vs[n].verdict, None, now, status);
      } else {
        HasAfterOtherSet(mid, vs[n].typ, vs[n].verdict, None, now, typ, status);
      }
      assert forall i :: 0 <= i < n ==> vs[i] == vs[..n][i];
    }
  }

  /** Whether the controller will see the type as True after a report. */
  predicate SeenTrue(cs: seq<Condition>, typ: string, reported: bool) {
    reported || Shadowed(cs, typ, CondTrue)
  }

  /** Eligibility after a report, from any prior status whatever. */
  lemma EligibleAfterReport(prev: NodeStatus, uid: string, version: string, endpoint: Endpoint, f: Findings, later: Time)
    ensures Eligible(Reported(prev, uid, version, endpoint, f), later) <==>
            && SeenTrue(prev.conditions, "Ready", f.health.ok)
            && SeenTrue(prev.conditions, "KVMAvailable", f.health.kvmAvailable)
            && SeenTrue(prev.conditions, "RuntimeReady", f.health.socketReady)
            && SeenTrue(prev.conditions, "Schedulable", KubeUp(f) && f.health.ok)
            && later - f.now <= HEARTBEAT_LIMIT && endpoint.podIP != "" && endpoint.port > 0
  {
    hide SetAll, HasCondition, Shadowed, KubeUp;
    var cs, vs := prev.conditions, Verdicts(f);
    assert vs[0].typ == "Ready" && vs[1].typ == "KVMAvailable" && vs[2].typ == "RuntimeReady" && vs[3].typ == "Schedulable";
    HasAfterAll(cs, vs, f.now, "Ready", CondTrue);
    HasAfterAll(cs, vs, f.now, "KVMAvailable", CondTrue);
    HasAfterAll(cs, vs, f.now, "RuntimeReady", CondTrue);
    HasAfterAll(cs, vs, f.now, "Schedulable", CondTrue);
  }

  /** `health` as the agent computes it. */
  predicate Checked(h: Health) { h.ok <==> h.socketReady && h.stateReady && h.kvmAvailable }

  /** The node is fit to be used at `later`, in the report's own terms. */
  predicate Fit(endpoint: Endpoint, f: Findings, later: Time) {
    f.health.ok && KubeUp(f) && later - f.now <= HEARTBEAT_LIMIT && endpoint.podIP != "" && endpoint.port > 0
  }

  /** Reporter and scheduler agree: from a status with one entry per type, the node is eligible
      exactly when it is healthy, its Kubernetes node is Ready, the heartbeat is at most two
      minutes old and the endpoint is complete; and the report leaves one entry per type. */
  lemma ReportAgrees(prev: NodeStatus, uid: string, version: string, endpoint: Endpoint, f: Findings, later: Time)
    requires Unique(prev.conditions) && Checked(f.health)
    ensures var st := Reported(prev, uid, version, endpoint, f);
            && (Eligible(st, later) <==> Fit(endpoint, f, later))
            && Unique(st.conditions)
  {
    hide Eligible;
    EligibleAfterReport(prev, uid, version, endpoint, f, later);
    SetAllUnique(prev.conditions, Verdicts(f), None, f.now);
  }

  /** Whatever is reported on top of these conditions, the controller reads it as meant. */
  ghost predicate AlwaysAgrees(cs: seq<Condition>) {
    forall prev: NodeStatus, uid: string, version: string, endpoint: Endpoint, f: Findings, later: Time ::
      prev.conditions == cs && Checked(f.health) ==>
        (Eligible(Reported(prev, uid, version, endpoint, f), later) <==> Fit(endpoint, f, later))
  }

  /** Without distinct types the agreement can fail: a set stops at the first entry of its type,
      while the controller is content with any entry. It holds for every report exactly when no
      later Schedulable entry says True. */
  lemma AgreesIff(cs: seq<Condition>)
    ensures AlwaysAgrees(cs) <==> !Shadowed(cs, "Schedulable", CondTrue)
  {
    hide Eligible, Shadowed;
    if Shadowed(cs, "Schedulable", CondTrue) {
      var prev := NodeStatus("", "", "", None, Endpoint("", "", "", 0), Allocatable(0, 0, 0), cs);
      var f := Findings(None, Allocatable(0, 0, 0), Health(true, true, true, true, ""), 0);
      var e := Endpoint("", "", "10.0.0.1", 9443);
      EligibleAfterReport(prev, "", "", e, f, 0);
      assert Eligible(Reported(prev, "", "", e, f), 0) && !Fit(e, f, 0);
    } else {
      forall prev: NodeStatus, uid: string, version: string, endpoint: Endpoint, f: Findings, later: Time
        | prev.conditions == cs && Checked(f.health)
        ensures Eligible(Reported(prev, uid, version, endpoint, f), later) <==> Fit(endpoint, f, later)
      {
        EligibleAfterReport(prev, uid, version, endpoint, f, later);
      }
    }
  }
}
