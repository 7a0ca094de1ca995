/** What happens when the two reads of a reconcile disagree on the binding: when they can, what a
    status write then does to the newer version, and runs in which it happens. */
module Rebind {
  import opened Types
  import opened StatusWriter
  import opened Scheduler
  import opened Decision
  import opened Protocol
  import opened Safety
  import opened Samples

  // ---- When it can happen -----------------------------------------------------------

  /** The reads disagree in two ways only: the VM was bound in between, or the first read showed
      a bound VM on its way out and the second its unbound successor of the same name. */
  lemma DisagreeExactly(s: Cluster, k: Key, rv: nat, now: Time)
    requires Inv(s) && Enabled(s, Reread(k, rv, now)) && Hist(s, k)[rv].At?
    ensures var vm, latest := WorkerOf(s, k).vm, Hist(s, k)[rv].vm;
            !ReadsAgree(s, Reread(k, rv, now)) <==>
            || (!vm.Bound() && latest.Bound())
            || (vm.Bound() && vm.deleting && !latest.Bound() && !Same(vm, latest))
  {
    hide Inv, KeyOk, VmOk, PlanMachines, Later, SpecProblem, Schedule, InputCoherent, Same;
    InvKey(s, k);
    PlannedFacts(s, k);
    ReadOrder(Hist(s, k), SeenOf(s, k), rv, k, s.births);
  }

  /** How a read at the cursor relates to a later one. */
  lemma ReadOrder(h: seq<Version>, c: nat, rv: nat, k: Key, births: map<string, Birth>)
    requires HistOk(h, c, k, births) && c <= rv < |h| && h[c].At? && h[rv].At?
    ensures h[rv].vm.Bound() ==> Same(h[c].vm, h[rv].vm)
    ensures h[c].vm.finalizer && !h[c].vm.deleting ==> Same(h[c].vm, h[rv].vm)
    ensures Same(h[c].vm, h[rv].vm) ==> Later(h[c].vm, h[rv].vm)
    ensures Same(h[c].vm, h[rv].vm) && h[c].vm.Bound() ==> h[rv].vm.status.nodeName == h[c].vm.status.nodeName
  {
    hide VmOk, Same;
    assert Same(h[c].vm, h[rv].vm) ==> Later(h[c].vm, h[rv].vm);
  }

  // ---- What it does -----------------------------------------------------------------

  /** Whatever the reconcile sees and its call returns, a status it writes on top of `latest`
      leaves the node name that is there. */
  ghost predicate AlwaysKeeps(s: Cluster, k: Key, latest: SmolVM)
    requires WorkerOf(s, k).Fetched?
  {
    forall view, outcome, now | Enabled(s, Look(k, view)) && Final(WorkerOf(s, k).vm, view, outcome).WriteStatus? ::
      Rewritten(latest, Final(WorkerOf(s, k).vm, view, outcome).input, now).nodeName == latest.status.nodeName
  }

  function Rewritten(latest: SmolVM, input: StatusInput, now: Time): Status {
    StatusAfter(latest.status, input, latest.generation, now)
  }

  lemma RewrittenNode(latest: SmolVM, input: StatusInput, now: Time)
    ensures Rewritten(latest, input, now).nodeName == input.nodeName
  {
    hide Settings, SetAll;
  }

  /** The node name any final status write carries. */
  lemma FinalNode(vm: SmolVM, view: View, outcome: CallOutcome)
    ensures Final(vm, view, outcome).WriteStatus? ==>
              && (vm.Bound() ==> Final(vm, view, outcome).input.nodeName == vm.status.nodeName)
              && (vm.deleting ==> vm.Bound()) && (!vm.deleting ==> vm.finalizer)
  {
    DecideFacts(vm, view);
    if Decide(vm, view).Call? {
      AfterCallFacts(vm, view, Decide(vm, view).call, outcome);
    }
    hide Decide, AfterCall, SpecProblem, Schedule, InputCoherent, RuntimeProblem;
  }

  /** A later bound version keeps its binding against everything this reconcile may do, exactly
      when the first read already showed it bound or takes a branch that places nothing (being
      deleted, or without finalizer). Otherwise the branch for unbound VMs is open, and it moves or
      clears the binding. */
  lemma KeepsBindingExactly(s: Cluster, k: Key, rv: nat)
    requires Inv(s) && WorkerOf(s, k).Fetched? && SeenOf(s, k) <= rv < |Hist(s, k)|
    requires Hist(s, k)[rv].At? && Hist(s, k)[rv].vm.Bound()
    ensures var vm := WorkerOf(s, k).vm;
            AlwaysKeeps(s, k, Hist(s, k)[rv].vm) <==> vm.Bound() || vm.deleting || !vm.finalizer
  {
    hide Inv, KeyOk, Final, HonestView, Rewritten;
    InvKey(s, k);
    var vm, latest := WorkerOf(s, k).vm, Hist(s, k)[rv].vm;
    FetchedOrder(s, k, rv);
    if vm.Bound() || vm.deleting || !vm.finalizer {
      forall view, outcome, now | Enabled(s, Look(k, view)) && Final(vm, view, outcome).WriteStatus?
        ensures Rewritten(latest, Final(vm, view, outcome).input, now).nodeName == latest.status.nodeName
      {
        FinalNode(vm, view, outcome);
        RewrittenNode(latest, Final(vm, view, outcome).input, now);
      }
    } else {
      var view, outcome := Bare(""), CallNotFound;
      Clears(vm, "", outcome);
      RewrittenNode(latest, Final(vm, view, outcome).input, 0);
      LookEnabled(s, k, view);
      assert Rewritten(latest, Final(vm, view, outcome).input, 0).nodeName != latest.status.nodeName;
    }
  }

  lemma FetchedOrder(s: Cluster, k: Key, rv: nat)
    requires KeyOk(s, k) && WorkerOf(s, k).Fetched? && SeenOf(s, k) <= rv < |Hist(s, k)| && Hist(s, k)[rv].At?
    ensures var vm, latest := WorkerOf(s, k).vm, Hist(s, k)[rv].vm;
            && (latest.Bound() ==> Same(vm, latest))
            && (vm.finalizer && !vm.deleting ==> Same(vm, latest))
            && (Same(vm, latest) && vm.Bound() ==> latest.status.nodeName == vm.status.nodeName)
  {
    hide HistOk, Same;
    ReadOrder(Hist(s, k), SeenOf(s, k), rv, k, s.births);
  }

  /** A view in which the machine could not be read is always possible. */
  lemma LookEnabled(s: Cluster, k: Key, view: View)
    requires WorkerOf(s, k).Fetched? && view.got.GetFailed?
    ensures Enabled(s, Look(k, view))
  {
  }

  /** With no node to place it on, a live unbound VM gets a status without a node, valid or not. */
  lemma Clears(vm: SmolVM, n: string, outcome: CallOutcome)
    requires !vm.deleting && vm.finalizer && !vm.Bound()
    ensures Final(vm, Bare(n), outcome).WriteStatus? && Final(vm, Bare(n), outcome).input.nodeName == ""
  {
    BarePlaces(n, vm);
    hide Schedule, SpecProblem;
  }

  /** A successor of the same name is spared every status of this reconcile, exactly unless the
      first read showed a bound VM on its way out. */
  lemma SparesSuccessorExactly(s: Cluster, k: Key, rv: nat)
    requires Inv(s) && WorkerOf(s, k).Fetched? && SeenOf(s, k) <= rv < |Hist(s, k)|
    requires Hist(s, k)[rv].At? && !Same(WorkerOf(s, k).vm, Hist(s, k)[rv].vm)
    ensures var vm := WorkerOf(s, k).vm;
            (forall view, outcome | Enabled(s, Look(k, view)) :: !Final(vm, view, outcome).WriteStatus?) <==>
            !(vm.Bound() && vm.deleting)
  {
    hide Inv, KeyOk, Final, HonestView, Same;
    InvKey(s, k);
    var vm := WorkerOf(s, k).vm;
    FetchedOrder(s, k, rv);
    if vm.Bound() && vm.deleting {
      var view := Lone(vm.status.nodeName, map[]);
      Blames(vm);
      LookEnabled(s, k, view);
      assert Final(vm, view, CallFailed("")).WriteStatus?;
    } else {
      forall view, outcome | Enabled(s, Look(k, view)) ensures !Final(vm, view, outcome).WriteStatus? {
        FinalNode(vm, view, outcome);
      }
    }
  }

  /** A failed delete call is reported. */
  lemma Blames(vm: SmolVM)
    requires vm.Bound() && vm.deleting
    ensures Final(vm, Lone(vm.status.nodeName, map[]), CallFailed("")).WriteStatus?
  {
    LoneUsable(vm.status.nodeName, map[]);
    DistinctTagsDistinctNames(vm, vm);
    hide RuntimeProblem, Lone, StableMachineName;
  }
}
