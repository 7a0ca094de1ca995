/** The orphan sweeper of the node agent. */
module Sweeper {
  import opened Types

  predicate Owns(vm: SmolVM, nodeName: string) {
    vm.status.nodeName == nodeName && vm.status.machineName != "" && !vm.deleting
  }

  function OwnedNames(vms: seq<SmolVM>, nodeName: string): (r: set<string>)
    ensures forall m :: m in r <==> exists i :: 0 <= i < |vms| && Owns(vms[i], nodeName) && vms[i].status.machineName == m
  {
    set i | 0 <= i < |vms| && Owns(vms[i], nodeName) :: vms[i].status.machineName
  }

  /** The machines a sweep goes on to delete, in list order. */
  function Doomed(listed: seq<string>, owned: set<string>): (r: seq<string>)
    ensures forall m :: m in r <==> m in listed && ControllerName(m) && m !in owned
  {
    if listed == [] then []
    else
      var last := listed[|listed| - 1];
      Doomed(listed[..|listed| - 1], owned) + (if ControllerName(last) && last !in owned then [last] else [])
  }

  /** Some listed VM keeps the machine: it carries its name, is on this node, and is not being
      deleted. */
  predicate KeptByList(vms: seq<SmolVM>, nodeName: string, name: string) {
    exists i :: 0 <= i < |vms| && vms[i].status.machineName == name && vms[i].status.nodeName == nodeName && !vms[i].deleting
  }

  /** A sweep goes on to delete exactly the machines it listed under a name that starts with k8s-
      and that no listed VM keeps. */
  lemma SweepExactly(listed: seq<string>, vms: seq<SmolVM>, nodeName: string, name: string)
    ensures name in Doomed(listed, OwnedNames(vms, nodeName)) <==>
            name in listed && "k8s-" <= name && !KeptByList(vms, nodeName, name)
  {
    hide Doomed, OwnedNames;
    if "k8s-" <= name {
      assert name != "";
      assert name in OwnedNames(vms, nodeName) <==> KeptByList(vms, nodeName, name);
    }
  }

  function Names(machines: seq<MachineInfo>): seq<string> {
    seq(|machines|, i requires 0 <= i < |machines| => machines[i].name)
  }

  method CollectOwned(vms: seq<SmolVM>, nodeName: string) returns (owned: set<string>)
    ensures owned == OwnedNames(vms, nodeName)
    ensures forall name :: name != "" ==> (name in owned <==> KeptByList(vms, nodeName, name))
  {
    owned := {};
    for i := 0 to |vms|
      invariant owned == OwnedNames(vms[..i], nodeName)
    {
      if vms[i].status.nodeName != nodeName || vms[i].status.machineName == "" || vms[i].deleting {
        continue;
      }
      owned := owned + {vms[i].status.machineName};
    }
    assert vms[..|vms|] == vms;
  }

  /** The machines of one node, as its runtime keeps them. */
  class NodeRuntime {
    var machines: map<string, MachineInfo>

    /** One pass over what was listed; `refuses` are the names whose delete call fails. */
    method CleanupOrphans(nodeName: string, listed: seq<MachineInfo>, vms: seq<SmolVM>, refuses: set<string>)
      modifies this
      ensures machines == old(machines) - set m | m in Doomed(Names(listed), OwnedNames(vms, nodeName)) && m !in refuses
      ensures forall i :: 0 <= i < |listed| && "k8s-" <= listed[i].name && listed[i].name in old(machines) && listed[i].name !in refuses ==>
                (listed[i].name in machines <==> KeptByList(vms, nodeName, listed[i].name))
      ensures forall name :: name in old(machines) && (name in refuses || !("k8s-" <= name) || name !in Names(listed)) ==> name in machines
      ensures forall name :: name in machines ==> name in old(machines) && machines[name] == old(machines)[name]
    {
      hide Doomed, OwnedNames, KeptByList;
      var owned := CollectOwned(vms, nodeName);
      ghost var names := Names(listed);
      ghost var gone: set<string> := {};
      for i := 0 to |listed|
        invariant forall m :: m in gone <==> m in names[..i] && ControllerName(m) && m !in owned && m !in refuses
        invariant machines == old(machines) - gone
      {
        var name := listed[i].name;
        assert names[..i + 1] == names[..i] + [name];
        if !ControllerName(name) {
          continue;
        }
        if name in owned {
          continue;
        }
        if name !in refuses {
          machines := machines - {name};
          gone := gone + {name};
        }
      }
      assert names[..|listed|] == names;
      assert gone == set m | m in Doomed(names, owned) && m !in refuses;
      forall name ensures name in gone <==> name in names && "k8s-" <= name && !KeptByList(vms, nodeName, name) && name !in refuses {
        SweepExactly(names, vms, nodeName, name);
      }
      assert forall i :: 0 <= i < |listed| ==> names[i] == listed[i].name;
    }
  }
}
