/** That sweeping gets done: a machine whose VM is gone or leaving when the VMs are listed is among
    those deleted, and stays so until its turn has come. */
module Sweeps {
  import opened Types
  import opened Decision
  import opened Sweeper
  import opened Protocol

  /** No existing VM keeps this machine on this node. */
  ghost predicate Unkept(s: Cluster, n: string, m: string) {
    forall k | Cur(s, k).At? :: Cur(s, k).vm.status.machineName == m && Cur(s, k).vm.status.nodeName == n ==> Cur(s, k).vm.deleting
  }

  /** At the VM list, exactly the machines listed before under a controller name that no existing
      VM keeps are condemned. */
  lemma CondemnsExactly(s: Cluster, n: string, vms: seq<SmolVM>, m: string)
    requires Enabled(s, SweepOwners(n, vms))
    ensures var s' := Apply(s, SweepOwners(n, vms));
            && SweepOf(s, n).Listed? && SweepOf(s', n).Condemned?
            && (m in SweepOf(s', n).names <==> m in SweepOf(s, n).names && "k8s-" <= m && Unkept(s, n, m))
  {
    SweepExactly(SweepOf(s, n).names, vms, n, m);
    ListTells(s, vms, n, m);
    hide Doomed, OwnedNames, KeptByList, Unkept, ListsAll;
  }

  lemma ListTells(s: Cluster, vms: seq<SmolVM>, n: string, m: string)
    requires ListsAll(s, vms)
    ensures KeptByList(vms, n, m) <==> !Unkept(s, n, m)
  {
    hide Hist;
    if KeptByList(vms, n, m) {
      var i :| 0 <= i < |vms| && vms[i].status.machineName == m && vms[i].status.nodeName == n && !vms[i].deleting;
      var k :| k in s.store && Cur(s, k) == At(vms[i]);
    }
    if !Unkept(s, n, m) {
      var k :| Cur(s, k).At? && Cur(s, k).vm.status.machineName == m && Cur(s, k).vm.status.nodeName == n && !Cur(s, k).vm.deleting;
      assert k in s.store by { InStore(s, k); }
      assert Cur(s, k).vm in vms;
    }
  }

  lemma InStore(s: Cluster, k: Key)
    requires Cur(s, k).At?
    ensures k in s.store
  {
  }

  /** The sweep's turn for this machine, and the call takes effect. */
  predicate DeletesNow(s: Cluster, step: Step, n: string, m: string) {
    step.SweepDelete? && step.node == n && step.effect && SweepOf(s, n).Condemned? && SweepOf(s, n).names != [] && SweepOf(s, n).names[0] == m
  }

  lemma DeletedNow(s: Cluster, step: Step, n: string, m: string)
    requires Enabled(s, step) && DeletesNow(s, step, n, m)
    ensures Slot(n, m) !in Apply(s, step).machines
  {
  }

  /** The step takes this machine's turn in the sweep, with or without effect, or ends the sweep. */
  predicate TurnOf(s: Cluster, step: Step, n: string, m: string) {
    || (step.SweepDelete? && step.node == n && SweepOf(s, n).Condemned? && SweepOf(s, n).names != [] && SweepOf(s, n).names[0] == m)
    || (step.SweepEnd? && step.node == n)
  }

  predicate BySweeper(step: Step) { step.SweepList? || step.SweepOwners? || step.SweepDelete? || step.SweepEnd? }

  lemma CommitLeavesSweeps(s: Cluster, k: Key)
    ensures WorkerOf(s, k).Drafted? ==> AfterCommitStatus(s, k).sweeps == s.sweeps
    ensures WorkerOf(s, k).Planned? ==> AfterCommitObject(s, k).sweeps == s.sweeps
  {
    hide AfterDrop, Hist;
  }

  lemma OthersLeaveSweeps(s: Cluster, step: Step)
    requires Enabled(s, step) && !BySweeper(step)
    ensures Apply(s, step).sweeps == s.sweeps
  {
    if step.CommitStatus? || step.CommitObject? {
      CommitLeavesSweeps(s, step.k);
    }
    hide AfterCommitStatus, AfterCommitObject, Hist, Newborn, Admitted, HonestView, HonestOutcome, Decide, AfterCall, CallEffect,
      RereadWorker, StableMachineName;
  }

  /** A condemned machine stays condemned until its turn. */
  lemma StaysCondemned(s: Cluster, step: Step, n: string, m: string)
    requires Enabled(s, step) && SweepOf(s, n).Condemned? && m in SweepOf(s, n).names && !TurnOf(s, step, n, m)
    ensures SweepOf(Apply(s, step), n).Condemned? && m in SweepOf(Apply(s, step), n).names
  {
    if BySweeper(step) {
      SweeperStays(s, step, n, m);
    } else {
      OthersLeaveSweeps(s, step);
      hide Enabled, Apply;
    }
  }

  lemma SweeperStays(s: Cluster, step: Step, n: string, m: string)
    requires Enabled(s, step) && BySweeper(step) && SweepOf(s, n).Condemned? && m in SweepOf(s, n).names && !TurnOf(s, step, n, m)
    ensures SweepOf(Apply(s, step), n).Condemned? && m in SweepOf(Apply(s, step), n).names
  {
    hide ListsAll, Doomed, OwnedNames;
    if step.SweepDelete? && step.node == n {
      var names := SweepOf(s, n).names;
      assert names == [names[0]] + names[1..];
    }
  }

  /** The sweep completes: a machine listed under a controller name, whose VM is gone or being deleted
      when the VMs are listed, is still to be deleted at every later state of the run, until a step
      takes its turn or ends the sweep early; and if that deletion takes effect, no machine is left
      at that slot. */
  lemma {:induction false} SweepCompletes(states: seq<Cluster>, steps: seq<Step>, i: nat, j: nat, n: string, m: string)
    requires IsRun(states, steps) && i < j < |states|
    requires steps[i].SweepOwners? && steps[i].node == n
    requires SweepOf(states[i], n).Listed? && m in SweepOf(states[i], n).names && "k8s-" <= m && Unkept(states[i], n, m)
    ensures || (SweepOf(states[j], n).Condemned? && m in SweepOf(states[j], n).names)
            || exists h :: i < h < j && TurnOf(states[h], steps[h], n, m)
                           && (DeletesNow(states[h], steps[h], n, m) ==> Slot(n, m) !in states[h + 1].machines)
    decreases j
  {
    hide Enabled, Apply, Unkept, TurnOf, DeletesNow, Init;
    if j == i + 1 {
      CondemnsExactly(states[i], n, steps[i].vms, m);
    } else {
      SweepCompletes(states, steps, i, j - 1, n, m);
      if SweepOf(states[j - 1], n).Condemned? && m in SweepOf(states[j - 1], n).names {
        if TurnOf(states[j - 1], steps[j - 1], n, m) {
          if DeletesNow(states[j - 1], steps[j - 1], n, m) {
            DeletedNow(states[j - 1], steps[j - 1], n, m);
          }
        } else {
          StaysCondemned(states[j - 1], steps[j - 1], n, m);
        }
      }
    }
  }
}
