/** Writing SmolVM status: every branch of the reconciler fills a StatusInput and goes through
    the same update, which is skipped when nothing would change. */
module StatusWriter {
  import opened Types
  import opened Conditions

  datatype StatusInput = StatusInput(
    phase: string, nodeName: string, machineName: string, machine: Option<MachineInfo>,
    scheduled: Option<Verdict>, ready: Verdict, recon: Verdict, deletionBlocked: Option<Verdict>)

  datatype Setting = Setting(typ: string, verdict: Verdict)

  function AssignedTo(nodeName: string): string { "assigned to node " + nodeName }

  function BoundVerdict(nodeName: string): Verdict { Verdict(CondTrue, "Bound", AssignedTo(nodeName)) }

  const GUEST_UNKNOWN :=
    Verdict(CondUnknown, "GuestReadinessUnavailable", "smolvm guest readiness is not reported by the runtime API")

  function PortsFromRuntime(ports: seq<PortSpec>): (out: seq<VMPort>)
    ensures |out| == |ports|
    ensures forall i :: 0 <= i < |ports| ==> out[i] == VMPort(ports[i].host, ports[i].guest)
  {
    if ports == [] then [] else [VMPort(ports[0].host, ports[0].guest)] + PortsFromRuntime(ports[1..])
  }

  /** A binding without an explicit verdict is reported as Scheduled. */
  function Scheduled(input: StatusInput): Option<Verdict> {
    if input.scheduled.None? && input.nodeName != "" then Some(BoundVerdict(input.nodeName)) else input.scheduled
  }

  /** The conditions one update sets, in order. */
  function Settings(input: StatusInput): seq<Setting> {
    (if Scheduled(input).Some? then [Setting("Scheduled", Scheduled(input).value)] else []) +
    [Setting("Ready", input.ready), Setting("RuntimeReady", input.ready),
     Setting("GuestReady", GUEST_UNKNOWN), Setting("Reconciled", input.recon)] +
    (if input.deletionBlocked.Some? then [Setting("DeletionBlocked", input.deletionBlocked.value)] else [])
  }

  function SetAll(cs: seq<Condition>, settings: seq<Setting>, generation: Option<int>, now: Time): seq<Condition> {
    if settings == [] then cs
    else
      var last := settings[|settings| - 1];
      SetCond(SetAll(cs, settings[..|settings| - 1], generation, now), last.typ, last.verdict, generation, now)
  }

  /** The status an update computes from the one it read. */
  function StatusAfter(prev: Status, input: StatusInput, generation: int, now: Time): Status {
    var seen := input.machine;
    Status(input.phase, input.nodeName, input.machineName,
           if seen.Some? then seen.value.pid else prev.runtimePID,
           if seen.Some? then seen.value.network else prev.network,
           if seen.Some? then PortsFromRuntime(seen.value.ports) else prev.ports,
           if seen.Some? then seen.value.storageGB else prev.storageGiB,
           if seen.Some? then seen.value.overlayGB else prev.overlayGiB,
           generation,
           SetAll(prev.conditions, Settings(input), Some(generation), now))
  }

  predicate DistinctTypes(settings: seq<Setting>) {
    forall i, j :: 0 <= i < j < |settings| ==> settings[i].typ != settings[j].typ
  }

  lemma SettingsDistinct(input: StatusInput)
    ensures DistinctTypes(Settings(input))
  {
  }

  /** The verdict of a type after an update is the one the update set, or the earlier one. */
  lemma {:induction false} FindAfterAll(cs: seq<Condition>, settings: seq<Setting>, g: Option<int>, now: Time, typ: string)
    requires DistinctTypes(settings)
    ensures var after := Find(SetAll(cs, settings, g, now), typ);
            && (forall i :: 0 <= i < |settings| && settings[i].typ == typ ==>
                  && after.Some?
                  && after.value.status == settings[i].verdict.status
                  && after.value.reason == settings[i].verdict.reason
                  && after.value.message == settings[i].verdict.message
                  && (g.Some? ==> after.value.observedGeneration == g.value))
            && ((forall i :: 0 <= i < |settings| ==> settings[i].typ != typ) ==> after == Find(cs, typ))
  {
    hide SetCond;
    if settings != [] {
      var n := |settings| - 1;
      FindAfterAll(cs, settings[..n], g, now, typ);
      FindAfterSet(SetAll(cs, settings[..n], g, now), settings[n].typ, settings[n].verdict, g, now, typ);
      var mid := SetAll(cs, settings[..n], g, now);
      FindMember(mid, typ);
      forall i | 0 <= i < n ensures settings[..n][i] == settings[i] {}
    }
  }

  lemma {:induction false} SetAllUnique(cs: seq<Condition>, settings: seq<Setting>, g: Option<int>, now: Time)
    requires Unique(cs)
    ensures Unique(SetAll(cs, settings, g, now))
  {
    if settings != [] {
      var n := |settings| - 1;
      SetAllUnique(cs, settings[..n], g, now);
      SetRefinesMap(SetAll(cs, settings[..n], g, now), settings[n].typ, settings[n].verdict, g, now);
    }
  }

  /** Verdicts already in place are not rewritten. */
  lemma {:induction false} SetAllAgain(cs: seq<Condition>, settings: seq<Setting>, g: int, now: Time)
    requires forall i :: 0 <= i < |settings| ==>
      var c := Find(cs, settings[i].typ);
      c.Some? && Touch(c.value, settings[i].verdict, Some(g), now) == c.value
    ensures SetAll(cs, settings, Some(g), now) == cs
  {
    if settings != [] {
      var n := |settings| - 1;
      SetAllAgain(cs, settings[..n], g, now);
      SetAgain(cs, settings[n].typ, settings[n].verdict, Some(g), now);
    }
  }

  /** Repeating an update at any later time computes the status it already wrote, so the
      comparison before the write finds no difference: a converged VM is quiescent. */
  lemma UpdateQuiescent(prev: Status, input: StatusInput, generation: int, now: Time, later: Time)
    ensures var once := StatusAfter(prev, input, generation, now);
            StatusAfter(once, input, generation, later) == once
  {
    var ss := Settings(input);
    var once := StatusAfter(prev, input, generation, now);
    SettingsDistinct(input);
    forall i | 0 <= i < |ss|
      ensures var c := Find(once.conditions, ss[i].typ);
              c.Some? && Touch(c.value, ss[i].verdict, Some(generation), later) == c.value
    {
      FindAfterAll(prev.conditions, ss, Some(generation), now, ss[i].typ);
      FindMember(once.conditions, ss[i].typ);
    }
    SetAllAgain(once.conditions, ss, generation, later);
  }

  function VerdictOf(cs: seq<Condition>, typ: string): Option<Verdict> {
    match Find(cs, typ)
    case None => None
    case Some(c) => Some(Verdict(c.status, c.reason, c.message))
  }

  predicate Says(cs: seq<Condition>, typ: string, status: ConditionStatus) {
    VerdictOf(cs, typ).Some? && VerdictOf(cs, typ).value.status == status
  }

  /** Scheduled is True exactly when there is a binding, and then names the node; Ready and
      RuntimeReady agree; Ready=True only in phase Running; one entry per condition type. */
  predicate Coherent(st: Status) {
    && Unique(st.conditions)
    && (Says(st.conditions, "Scheduled", CondTrue) <==> st.nodeName != "")
    && (st.nodeName != "" ==> VerdictOf(st.conditions, "Scheduled").value.message == AssignedTo(st.nodeName))
    && VerdictOf(st.conditions, "Ready") == VerdictOf(st.conditions, "RuntimeReady")
    && (Says(st.conditions, "Ready", CondTrue) ==> st.phase == "Running")
  }

  /** What the branches of the reconciler put into an input. */
  predicate InputCoherent(input: StatusInput) {
    && (input.ready.status == CondTrue ==> input.phase == "Running")
    && (input.scheduled.Some? ==>
          && (input.scheduled.value.status == CondTrue <==> input.nodeName != "")
          && (input.nodeName != "" ==> input.scheduled.value.message == AssignedTo(input.nodeName)))
  }

  lemma VerdictsAfter(prev: Status, input: StatusInput, generation: int, now: Time)
    ensures var cs := StatusAfter(prev, input, generation, now).conditions;
            && VerdictOf(cs, "Ready") == Some(input.ready)
            && VerdictOf(cs, "RuntimeReady") == Some(input.ready)
            && VerdictOf(cs, "Reconciled") == Some(input.recon)
            && VerdictOf(cs, "Scheduled") ==
               (if Scheduled(input).Some? then Scheduled(input) else VerdictOf(prev.conditions, "Scheduled"))
            && Says(cs, "GuestReady", CondUnknown)
  {
    var ss := Settings(input);
    var o := if Scheduled(input).Some? then 1 else 0;
    SettingsDistinct(input);
    assert ss[o] == Setting("Ready", input.ready) && ss[o + 1] == Setting("RuntimeReady", input.ready);
    assert ss[o + 3] == Setting("Reconciled", input.recon);
    FindAfterAll(prev.conditions, ss, Some(generation), now, "Ready");
    FindAfterAll(prev.conditions, ss, Some(generation), now, "RuntimeReady");
    FindAfterAll(prev.conditions, ss, Some(generation), now, "Reconciled");
    FindAfterAll(prev.conditions, ss, Some(generation), now, "Scheduled");
    assert ss[o + 2] == Setting("GuestReady", GUEST_UNKNOWN);
    FindAfterAll(prev.conditions, ss, Some(generation), now, "GuestReady");
    assert Scheduled(input).Some? ==> ss[0] == Setting("Scheduled", Scheduled(input).value);
  }

  lemma BlockedAfter(prev: Status, input: StatusInput, generation: int, now: Time)
    ensures var cs := StatusAfter(prev, input, generation, now).conditions;
            VerdictOf(cs, "DeletionBlocked") ==
            if input.deletionBlocked.Some? then input.deletionBlocked else VerdictOf(prev.conditions, "DeletionBlocked")
  {
    var ss := Settings(input);
    SettingsDistinct(input);
    FindAfterAll(prev.conditions, ss, Some(generation), now, "DeletionBlocked");
    assert input.deletionBlocked.Some? ==> ss[|ss| - 1] == Setting("DeletionBlocked", input.deletionBlocked.value);
  }

  // ---- What was seen of the machine -------------------------------------------------

  /** The status shows the machine: process, network, ports in order, and the size of each disk. */
  predicate Mirrors(st: Status, m: MachineInfo) {
    && st.runtimePID == m.pid && st.network == m.network
    && |st.ports| == |m.ports|
    && (forall i :: 0 <= i < |m.ports| ==> st.ports[i].hostPort == m.ports[i].host && st.ports[i].guestPort == m.ports[i].guest)
    && st.storageGiB == m.storageGB && st.overlayGiB == m.overlayGB
  }

  /** Two statuses show the same of the machine. */
  predicate SameObserved(a: Status, b: Status) {
    && a.runtimePID == b.runtimePID && a.network == b.network && a.ports == b.ports
    && a.storageGiB == b.storageGiB && a.overlayGiB == b.overlayGiB
  }

  /** An update with a machine shows that machine, one without leaves what was shown; either is
      stamped with the generation of the version it was written on. */
  lemma ObservedAfter(prev: Status, input: StatusInput, generation: int, now: Time)
    ensures var st := StatusAfter(prev, input, generation, now);
            && (if input.machine.Some? then Mirrors(st, input.machine.value) else SameObserved(st, prev))
            && st.observedGeneration == generation
            && st.phase == input.phase && st.nodeName == input.nodeName && st.machineName == input.machineName
  {
    hide Settings, SetAll;
  }

  /** An update of a coherent status is coherent exactly when it does not silently drop a
      binding: clearing the node name without a Scheduled verdict leaves the old one behind. */
  lemma CoherentAfter(prev: Status, input: StatusInput, generation: int, now: Time)
    requires Coherent(prev) && InputCoherent(input)
    ensures Coherent(StatusAfter(prev, input, generation, now)) <==>
            !(input.scheduled.None? && input.nodeName == "" && prev.nodeName != "")
  {
    VerdictsAfter(prev, input, generation, now);
    SetAllUnique(prev.conditions, Settings(input), Some(generation), now);
  }

  /** The object being rewritten field by field between the second read and the write. */
  class StatusDraft {
    var phase: string
    var nodeName: string
    var machineName: string
    var runtimePID: Option<Int32>
    var network: bool
    var ports: seq<VMPort>
    var storageGiB: Option<Int64>
    var overlayGiB: Option<Int64>
    var observedGeneration: int
    const conditions: ConditionList

    function Snapshot(): Status
      reads this, conditions
    {
      Status(phase, nodeName, machineName, runtimePID, network, ports, storageGiB, overlayGiB,
             observedGeneration, conditions.items)
    }

    constructor (st: Status)
      ensures Snapshot() == st && fresh(conditions)
    {
      phase, nodeName, machineName := st.phase, st.nodeName, st.machineName;
      runtimePID, network, ports := st.runtimePID, st.network, st.ports;
      storageGiB, overlayGiB := st.storageGiB, st.overlayGiB;
      observedGeneration := st.observedGeneration;
      conditions := new ConditionList(st.conditions);
    }

    method Apply(input: StatusInput, generation: int, now: Time)
      modifies this, conditions
      ensures Snapshot() == StatusAfter(old(Snapshot()), input, generation, now)
      ensures if input.machine.Some? then Mirrors(Snapshot(), input.machine.value) else SameObserved(Snapshot(), old(Snapshot()))
      ensures observedGeneration == generation
    {
      ObservedAfter(Snapshot(), input, generation, now);
      hide Mirrors, SameObserved;
      phase := input.phase;
      nodeName := input.nodeName;
      machineName := input.machineName;
      if input.machine.Some? {
        var m := input.machine.value;
        runtimePID := m.pid;
        network := m.network;
        ports := PortsFromRuntime(m.ports);
        storageGiB := m.storageGB;
        overlayGiB := m.overlayGB;
      }
      observedGeneration := generation;
      SetConditions(input, generation, now);
    }

    method SetConditions(input: StatusInput, generation: int, now: Time)
      modifies conditions
      ensures conditions.items == SetAll(old(conditions.items), Settings(input), Some(generation), now)
    {
      var scheduled := input.scheduled;
      if scheduled.None? && input.nodeName != "" {
        scheduled := Some(BoundVerdict(input.nodeName));
      }
      ghost var start := conditions.items;
      ghost var done: seq<Setting> := [];
      if scheduled.Some? {
        done := Put(start, done, "Scheduled", scheduled.value, generation, now);
      }
      ghost var first := done;
      done := Put(start, done, "Ready", input.ready, generation, now);
      done := Put(start, done, "RuntimeReady", input.ready, generation, now);
      done := Put(start, done, "GuestReady", GUEST_UNKNOWN, generation, now);
      done := Put(start, done, "Reconciled", input.recon, generation, now);
      if input.deletionBlocked.Some? {
        done := Put(start, done, "DeletionBlocked", input.deletionBlocked.value, generation, now);
      }
      assert first == if Scheduled(input).Some? then [Setting("Scheduled", Scheduled(input).value)] else [];
      assert done == Settings(input);
    }

    /** One condition set; `done` lists the ones already made since `start`. */
    method Put(ghost start: seq<Condition>, ghost done: seq<Setting>, typ: string, v: Verdict, generation: int, now: Time)
      returns (ghost done': seq<Setting>)
      requires conditions.items == SetAll(start, done, Some(generation), now)
      modifies conditions
      ensures done' == done + [Setting(typ, v)]
      ensures conditions.items == SetAll(start, done', Some(generation), now)
    {
      conditions.Set(typ, v, Some(generation), now);
      done' := done + [Setting(typ, v)];
      assert done'[..|done' | - 1] == done;
    }
  }
}
