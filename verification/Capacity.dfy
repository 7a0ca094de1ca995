/** Resource fit and host-port exclusivity, in the fixed-width integers of the source. */
module Capacity {
  import opened Types

  /** One past the largest int32 and int64. */
  const HALF32: int := 0x8000_0000
  const HALF64: int := 0x8000_0000_0000_0000

  /** Two's-complement wrap-around: the value congruent to `x` in [-half, half). */
  function Wrap(half: int, x: int): (r: int)
    requires half > 0
    ensures -half <= r < half && (-half <= x < half ==> r == x)
    decreases if x >= half then x else if x < -half then -x else 0
  {
    if x >= half then Wrap(half, x - 2 * half)
    else if x < -half then Wrap(half, x + 2 * half)
    else x
  }

  function Wrap32(x: int): Int32 { Wrap(HALF32, x) }

  function Wrap64(x: int): Int64 { Wrap(HALF64, x) }

  datatype Dimension = CPU | Memory | Storage

  /** What a VM asks for, as an unbounded number. */
  function Need(spec: Spec, d: Dimension): int {
    match d
    case CPU => spec.cpus
    case Memory => spec.memoryMiB
    case Storage => spec.storageGiB + spec.overlayGiB
  }

  function Cap(a: Allocatable, d: Dimension): int {
    match d
    case CPU => a.cpus
    case Memory => a.memoryMiB
    case Storage => a.storageGiB
  }

  function Half(d: Dimension): int { if d == CPU then HALF32 else HALF64 }

  /** The unbounded sum over the VMs bound to a node. */
  function Used(bound: seq<SmolVM>, nodeName: string, d: Dimension): int {
    if bound == [] then 0
    else
      var last := bound[|bound| - 1];
      Used(bound[..|bound| - 1], nodeName, d) + (if last.status.nodeName == nodeName then Need(last.spec, d) else 0)
  }

  function Sum(xs: seq<int>): int {
    if xs == [] then 0 else Sum(xs[..|xs| - 1]) + xs[|xs| - 1]
  }

  /** What each VM of the list takes of a node, field by field. */
  function CpuColumn(bound: seq<SmolVM>, n: string): seq<int> {
    seq(|bound|, i requires 0 <= i < |bound| => if bound[i].status.nodeName == n then bound[i].spec.cpus else 0)
  }

  function MemoryColumn(bound: seq<SmolVM>, n: string): seq<int> {
    seq(|bound|, i requires 0 <= i < |bound| => if bound[i].status.nodeName == n then bound[i].spec.memoryMiB else 0)
  }

  function StorageColumn(bound: seq<SmolVM>, n: string): seq<int> {
    seq(|bound|, i requires 0 <= i < |bound| =>
      if bound[i].status.nodeName == n then bound[i].spec.storageGiB + bound[i].spec.overlayGiB else 0)
  }

  /** The three dimensions are the sums of those columns. */
  lemma {:induction false} UsedColumns(bound: seq<SmolVM>, n: string)
    ensures Used(bound, n, CPU) == Sum(CpuColumn(bound, n))
    ensures Used(bound, n, Memory) == Sum(MemoryColumn(bound, n))
    ensures Used(bound, n, Storage) == Sum(StorageColumn(bound, n))
  {
    if bound != [] {
      var l := |bound| - 1;
      UsedColumns(bound[..l], n);
      assert CpuColumn(bound, n)[..l] == CpuColumn(bound[..l], n);
      assert MemoryColumn(bound, n)[..l] == MemoryColumn(bound[..l], n);
      assert StorageColumn(bound, n)[..l] == StorageColumn(bound[..l], n);
    }
  }

  predicate ExactFit(a: Allocatable, used: int, need: int, d: Dimension) {
    Cap(a, d) > 0 ==> used + need <= Cap(a, d)
  }

  /** The comparison as the machine carries it out. */
  predicate WrappedFit(a: Allocatable, used: int, need: int, d: Dimension) {
    Cap(a, d) > 0 ==> Wrap(Half(d), used + need) <= Cap(a, d)
  }

  /** The dimension a node is short of, the first in the order CPU, memory, storage. */
  function Shortage(node: SmolVMNode, vm: SmolVM, bound: seq<SmolVM>): Option<Dimension> {
    var a := node.status.allocatable;
    if !WrappedFit(a, Used(bound, node.name, CPU), Need(vm.spec, CPU), CPU) then Some(CPU)
    else if !WrappedFit(a, Used(bound, node.name, Memory), Need(vm.spec, Memory), Memory) then Some(Memory)
    else if !WrappedFit(a, Used(bound, node.name, Storage), Need(vm.spec, Storage), Storage) then Some(Storage)
    else None
  }

  /** Wrapping on the way does not change where a sum ends up. */
  lemma {:induction false} WrapStep(half: int, a: int, b: int)
    requires half > 0
    ensures Wrap(half, Wrap(half, a) + b) == Wrap(half, a + b)
    decreases if a >= half then a else if a < -half then -a else 0
  {
    if a >= half {
      WrapStep(half, a - 2 * half, b);
      assert Wrap(half, a - 2 * half + b) == Wrap(half, a + b);
    } else if a < -half {
      WrapStep(half, a + 2 * half, b);
      assert Wrap(half, a + 2 * half + b) == Wrap(half, a + b);
    }
  }

  /** The accumulating loop: however often the running totals wrap on the way, they end as one wrap
      of the exact totals. */
  method SumBound(nodeName: string, bound: seq<SmolVM>) returns (usedCPU: Int32, usedMemory: Int64, usedStorage: Int64)
    ensures usedCPU == Wrap32(Used(bound, nodeName, CPU)) == Wrap32(Sum(CpuColumn(bound, nodeName)))
    ensures usedMemory == Wrap64(Used(bound, nodeName, Memory)) == Wrap64(Sum(MemoryColumn(bound, nodeName)))
    ensures usedStorage == Wrap64(Used(bound, nodeName, Storage)) == Wrap64(Sum(StorageColumn(bound, nodeName)))
  {
    UsedColumns(bound, nodeName);
    hide Wrap, CpuColumn, MemoryColumn, StorageColumn, Sum;
    usedCPU, usedMemory, usedStorage := 0, 0, 0;
    for i := 0 to |bound|
      invariant usedCPU == Wrap32(Used(bound[..i], nodeName, CPU))
      invariant usedMemory == Wrap64(Used(bound[..i], nodeName, Memory))
      invariant usedStorage == Wrap64(Used(bound[..i], nodeName, Storage))
    {
      var s := bound[i].spec;
      assert bound[..i + 1][..i] == bound[..i];
      if bound[i].status.nodeName == nodeName {
        WrapStep(HALF32, Used(bound[..i], nodeName, CPU), s.cpus);
        usedCPU := Wrap32(usedCPU + s.cpus);
        WrapStep(HALF64, Used(bound[..i], nodeName, Memory), s.memoryMiB);
        usedMemory := Wrap64(usedMemory + s.memoryMiB);
        WrapStep(HALF64, s.storageGiB + s.overlayGiB, usedStorage);
        WrapStep(HALF64, Used(bound[..i], nodeName, Storage), s.storageGiB + s.overlayGiB);
        usedStorage := Wrap64(usedStorage + Wrap64(s.storageGiB + s.overlayGiB));
      }
    }
    assert bound[..|bound|] == bound;
  }

  /** The three tests on the wrapped totals decide as one wrap of each exact total would. */
  method ResourceFitReason(node: SmolVMNode, vm: SmolVM, bound: seq<SmolVM>) returns (short: Option<Dimension>)
    ensures short == Shortage(node, vm, bound)
    ensures var a := node.status.allocatable;
            var cpu := Wrap32(Sum(CpuColumn(bound, node.name)) + vm.spec.cpus);
            var memory := Wrap64(Sum(MemoryColumn(bound, node.name)) + vm.spec.memoryMiB);
            var storage := Wrap64(Sum(StorageColumn(bound, node.name)) + vm.spec.storageGiB + vm.spec.overlayGiB);
            short == if a.cpus > 0 && cpu > a.cpus then Some(CPU)
                     else if a.memoryMiB > 0 && memory > a.memoryMiB then Some(Memory)
                     else if a.storageGiB > 0 && storage > a.storageGiB then Some(Storage)
                     else None
  {
    UsedColumns(bound, node.name);
    hide Wrap, Used, Sum, CpuColumn, MemoryColumn, StorageColumn;
    var usedCPU, usedMemory, usedStorage := SumBound(node.name, bound);
    var a := node.status.allocatable;
    WrapStep(HALF32, Used(bound, node.name, CPU), vm.spec.cpus);
    if a.cpus > 0 && Wrap32(usedCPU + vm.spec.cpus) > a.cpus {
      return Some(CPU);
    }
    WrapStep(HALF64, Used(bound, node.name, Memory), vm.spec.memoryMiB);
    if a.memoryMiB > 0 && Wrap64(usedMemory + vm.spec.memoryMiB) > a.memoryMiB {
      return Some(Memory);
    }
    var requested: int := Wrap64(vm.spec.storageGiB + vm.spec.overlayGiB);
    WrapStep(HALF64, vm.spec.storageGiB + vm.spec.overlayGiB, usedStorage);
    WrapStep(HALF64, Used(bound, node.name, Storage), vm.spec.storageGiB + vm.spec.overlayGiB);
    if a.storageGiB > 0 && Wrap64(usedStorage + requested) > a.storageGiB {
      return Some(Storage);
    }
    return None;
  }

  predicate NonNegative(spec: Spec) {
    spec.cpus >= 0 && spec.memoryMiB >= 0 && spec.storageGiB >= 0 && spec.overlayGiB >= 0
  }

  lemma {:induction false} UsedBounds(bound: seq<SmolVM>, nodeName: string, d: Dimension)
    requires forall i :: 0 <= i < |bound| ==> NonNegative(bound[i].spec)
    ensures 0 <= Used(bound, nodeName, d)
    ensures d == Memory ==> Used(bound, nodeName, d) <= |bound| * (HALF32 - 1)
  {
    if bound != [] {
      UsedBounds(bound[..|bound| - 1], nodeName, d);
    }
  }

  /** The requests on top of what is used, each compared with what the node offers, without wrapping;
      an offer that is not positive is no limit. */
  predicate RoomFor(a: Allocatable, vm: SmolVM, bound: seq<SmolVM>, n: string) {
    && (a.cpus > 0 ==> Sum(CpuColumn(bound, n)) + vm.spec.cpus <= a.cpus)
    && (a.memoryMiB > 0 ==> Sum(MemoryColumn(bound, n)) + vm.spec.memoryMiB <= a.memoryMiB)
    && (a.storageGiB > 0 ==> Sum(StorageColumn(bound, n)) + vm.spec.storageGiB + vm.spec.overlayGiB <= a.storageGiB)
  }

  /** The node is accepted exactly when the unbounded sums fit, for requests whose CPU total
      stays within int32 and storage total within int64; memory needs only a list shorter
      than 2^32. */
  lemma FitIsExact(node: SmolVMNode, vm: SmolVM, bound: seq<SmolVM>)
    requires NonNegative(vm.spec) && forall i :: 0 <= i < |bound| ==> NonNegative(bound[i].spec)
    requires |bound| < 0x1_0000_0000
    requires Sum(CpuColumn(bound, node.name)) + vm.spec.cpus < 0x8000_0000
    requires Sum(StorageColumn(bound, node.name)) + vm.spec.storageGiB + vm.spec.overlayGiB < 0x8000_0000_0000_0000
    ensures Shortage(node, vm, bound) == None <==> RoomFor(node.status.allocatable, vm, bound, node.name)
    ensures Shortage(node, vm, bound) == None <==>
            forall d :: ExactFit(node.status.allocatable, Used(bound, node.name, d), Need(vm.spec, d), d)
  {
    hide Sum, CpuColumn, MemoryColumn, StorageColumn, Used;
    UsedColumns(bound, node.name);
    var a := node.status.allocatable;
    forall d ensures WrappedFit(a, Used(bound, node.name, d), Need(vm.spec, d), d)
                 <==> ExactFit(a, Used(bound, node.name, d), Need(vm.spec, d), d) {
      UsedBounds(bound, node.name, d);
    }
    assert ExactFit(a, Used(bound, node.name, CPU), Need(vm.spec, CPU), CPU)
        && ExactFit(a, Used(bound, node.name, Memory), Need(vm.spec, Memory), Memory)
        && ExactFit(a, Used(bound, node.name, Storage), Need(vm.spec, Storage), Storage)
        <==> RoomFor(a, vm, bound, node.name);
  }

  lemma {:induction false} WrapMod(half: int, x: int)
    requires half > 0
    ensures Wrap(half, x) == (x + half) % (2 * half) - half
    decreases if x >= half then x else if x < -half then -x else 0
  {
    if x >= half {
      WrapMod(half, x - 2 * half);
      ModShift(x - half, 2 * half);
    } else if x < -half {
      WrapMod(half, x + 2 * half);
      ModShift(x + half, 2 * half);
    } else {
      ModSmall(x + half, 2 * half);
    }
  }

  lemma ModShift(x: int, m: int)
    requires m > 0
    ensures (x + m) % m == x % m
  {
    var q := x / m;
    assert x == m * q + x % m;
    assert x + m == m * (q + 1) + x % m by { assert m * (q + 1) == m * q + m; }
    ModUnique(x + m, m, q + 1, x % m);
  }

  lemma ModSmall(x: int, m: int)
    requires 0 <= x < m
    ensures x % m == x
  {
    ModUnique(x, m, 0, x);
  }

  lemma ModUnique(x: int, m: int, q: int, r: int)
    requires m > 0 && 0 <= r < m && x == m * q + r
    ensures x % m == r
  {
    var d := q - x / m;
    assert x == m * (x / m) + x % m;
    assert m * d == x % m - r by { assert m * d == m * q - m * (x / m); }
    MulGrows(m, d);
  }

  lemma MulGrows(m: int, d: int)
    requires m > 0
    ensures d > 0 ==> m * d >= m
    ensures d < 0 ==> m * d <= -m
  {
  }

  /** The bound is tight. The test gives the right answer exactly while used plus requested stays
      in range, or else happens to wrap to a value above the node's capacity; any other total
      beyond the range is accepted. */
  lemma FitExactIff(a: Allocatable, used: int, need: int, d: Dimension)
    requires Cap(a, d) > 0 && used >= 0 && need >= 0
    ensures (WrappedFit(a, used, need, d) <==> ExactFit(a, used, need, d)) <==>
            used + need < Half(d) || (used + need + Half(d)) % (2 * Half(d)) > Cap(a, d) + Half(d)
  {
    WrapMod(Half(d), used + need);
  }

  /** Past the bound, for real: four CPUs, one in use, and a request near the int32 limit fits. */
  lemma OvercommitAccepted(node: SmolVMNode, vm: SmolVM, other: SmolVM)
    requires node.status.allocatable == Allocatable(4, 0, 0)
    requires other.status.nodeName == node.name && other.spec.cpus == 1 && vm.spec.cpus == HALF32 - 1
    ensures Shortage(node, vm, [other]) == None
    ensures !ExactFit(node.status.allocatable, Used([other], node.name, CPU), Need(vm.spec, CPU), CPU)
  {
    assert [other][..0] == [];
    assert Used([other], node.name, CPU) == 1;
    assert Wrap(HALF32, HALF32) == -HALF32;
  }

  // ---- Host ports -------------------------------------------------------------------

  predicate HostPortsDistinct(ports: seq<VMPort>) {
    forall i, j :: 0 <= i < j < |ports| ==> ports[i].hostPort != ports[j].hostPort
  }

  predicate Overlap(a: seq<VMPort>, b: seq<VMPort>) {
    exists i, j :: 0 <= i < |a| && 0 <= j < |b| && a[i].hostPort == b[j].hostPort
  }

  predicate PortTaken(nodeName: string, vm: SmolVM, bound: seq<SmolVM>) {
    exists i :: 0 <= i < |bound| && bound[i].status.nodeName == nodeName && Overlap(vm.spec.ports, bound[i].spec.ports)
  }

  method HostPortConflict(nodeName: string, vm: SmolVM, bound: seq<SmolVM>) returns (taken: bool)
    ensures taken <==> PortTaken(nodeName, vm, bound)
  {
    var requested: set<int> := {};
    for i := 0 to |vm.spec.ports|
      invariant forall p :: p in requested <==> exists j :: 0 <= j < i && vm.spec.ports[j].hostPort == p
    {
      requested := requested + {vm.spec.ports[i].hostPort};
    }
    if requested == {} {
      assert forall j :: 0 <= j < |vm.spec.ports| ==> vm.spec.ports[j].hostPort in requested;
      return false;
    }
    for i := 0 to |bound|
      invariant forall e :: 0 <= e < i && bound[e].status.nodeName == nodeName ==> !Overlap(vm.spec.ports, bound[e].spec.ports)
    {
      if bound[i].status.nodeName == nodeName {
        var ports := bound[i].spec.ports;
        for j := 0 to |ports|
          invariant forall e :: 0 <= e < j ==> ports[e].hostPort !in requested
        {
          if ports[j].hostPort in requested {
            return true;
          }
        }
        assert forall e :: 0 <= e < |vm.spec.ports| ==> vm.spec.ports[e].hostPort in requested;
      }
    }
    return false;
  }
}
