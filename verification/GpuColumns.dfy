/** app/core/aws_gpu_config.py, read off the family's columns: which instance is chosen, how large a
    clamped request may be, and what stays reserved on the instance. */
module GpuColumns {
  import opened Wrappers
  import opened GpuSizing

  /** Smaller by the first number, then by the second. */
  predicate Before(a: nat, b: nat, c: nat, d: nat) { a < c || (a == c && b < d) }

  // ---------------------------------------------------------------- the GPU count

  /** The count a request is rounded up to: the least count of the family that is not below it. */
  ghost predicate Rounded(f: Family, count: int, gpus: nat) {
    && (exists i :: i in f && i.gpus == gpus)
    && gpus >= count
    && forall i :: i in f && i.gpus >= count ==> gpus <= i.gpus
  }

  lemma RoundedIff(f: Family, count: int, gpus: nat)
    ensures Rounded(f, count, gpus) <==> InstanceFor(f, count).Some? && InstanceFor(f, count).value.gpus == gpus
  {
    RoundsUp(f, count, count);
    if InstanceFor(f, count).Some? {
      var i := InstanceFor(f, count).value;
      assert i in Candidates(f, count);
      forall j | j in f && j.gpus >= count ensures i.gpus <= j.gpus {
        assert j in Candidates(f, count) && Leq(ByGpus(i), ByGpus(j));
      }
    }
  }

  // ---------------------------------------------------------------- the first of the smallest

  /** The element at k is smaller than every one before it and not larger than any. */
  lemma {:induction false} MinIsFirst(items: seq<Instance>, key: Instance -> Key) returns (k: nat)
    requires items != []
    ensures k < |items| && items[k] == MinBy(items, key)
    ensures forall j :: 0 <= j < |items| ==> Leq(key(items[k]), key(items[j]))
    ensures forall j :: 0 <= j < k ==> !Leq(key(items[j]), key(items[k]))
    decreases |items|
  {
    if |items| == 1 {
      k := 0;
    } else {
      var before, last := items[..|items| - 1], items[|items| - 1];
      k := MinIsFirst(before, key);
      assert forall j :: 0 <= j < |before| ==> items[j] == before[j];
      if !Leq(key(items[k]), key(last)) { k := |items| - 1; }
    }
  }

  lemma {:induction false} MaxIsFirst(items: seq<Instance>, key: Instance -> Key) returns (k: nat)
    requires items != []
    ensures k < |items| && items[k] == MaxBy(items, key)
    ensures forall j :: 0 <= j < |items| ==> Leq(key(items[j]), key(items[k]))
    ensures forall j :: 0 <= j < k ==> !Leq(key(items[k]), key(items[j]))
    decreases |items|
  {
    if |items| == 1 {
      k := 0;
    } else {
      var before, last := items[..|items| - 1], items[|items| - 1];
      k := MaxIsFirst(before, key);
      assert forall j :: 0 <= j < |before| ==> items[j] == before[j];
      if !Leq(key(last), key(items[k])) { k := |items| - 1; }
    }
  }

  /** An element kept has its place in the sequence, with the kept ones before it before it. */
  lemma {:induction false} KeptAt(items: seq<Instance>, keep: Instance -> bool, k: nat) returns (at: nat)
    requires k < |Where(items, keep)|
    ensures at < |items| && items[at] == Where(items, keep)[k] && keep(items[at])
    ensures forall j :: 0 <= j < at && keep(items[j]) ==> items[j] in Where(items, keep)[..k]
    decreases |items|
  {
    var rest := Where(items[1..], keep);
    if keep(items[0]) && k == 0 {
      at := 0;
    } else {
      var inner := KeptAt(items[1..], keep, if keep(items[0]) then k - 1 else k);
      at := inner + 1;
      var shift := if keep(items[0]) then k - 1 else k;
      forall j | 0 <= j < at && keep(items[j]) ensures items[j] in Where(items, keep)[..k] {
        if j == 0 {
          assert Where(items, keep)[..k][0] == items[0];
        } else {
          assert items[j] == items[1..][j - 1];
          var p :| 0 <= p < |rest[..shift]| && rest[..shift][p] == items[j];
          assert Where(items, keep)[..k][if keep(items[0]) then p + 1 else p] == items[j];
        }
      }
    }
  }

  // ---------------------------------------------------------------- the instance for a count

  /** The instance at k has enough GPUs and is the first of those with the fewest GPUs and then vCPUs. */
  ghost predicate Smallest(f: Family, count: int, k: nat) {
    && k < |f| && f[k].gpus >= count
    && (forall j :: 0 <= j < |f| && f[j].gpus >= count ==> !Before(f[j].gpus, f[j].vcpus, f[k].gpus, f[k].vcpus))
    && (forall j :: 0 <= j < k && f[j].gpus >= count ==> Before(f[k].gpus, f[k].vcpus, f[j].gpus, f[j].vcpus))
  }

  /** Enough GPUs, then the fewest of them, then the fewest vCPUs, then the first listed. */
  lemma InstanceIff(f: Family, count: int, i: Instance)
    ensures InstanceFor(f, count) == Some(i) <==> exists k: nat :: Smallest(f, count, k) && f[k] == i
  {
    if InstanceFor(f, count).Some? {
      var chosen := Candidates(f, count);
      var at := MinIsFirst(chosen, ByGpus);
      var k := KeptAt(f, (i: Instance) => i.gpus >= count, at);
      forall j | 0 <= j < |f| && f[j].gpus >= count
        ensures !Before(f[j].gpus, f[j].vcpus, f[k].gpus, f[k].vcpus)
        ensures j < k ==> Before(f[k].gpus, f[k].vcpus, f[j].gpus, f[j].vcpus)
      {
        assert f[j] in chosen;
        if j < k { assert f[j] in chosen[..at]; }
      }
      assert Smallest(f, count, k);
      if l: nat :| Smallest(f, count, l) && f[l] == i { SmallestIsOne(f, count, k, l); }
    } else {
      RoundsUp(f, count, count);
    }
  }

  lemma SmallestIsOne(f: Family, count: int, k: nat, l: nat)
    requires Smallest(f, count, k) && Smallest(f, count, l)
    ensures k == l
  {
  }

  // ---------------------------------------------------------------- best fit

  /** The instance at k has the GPU count and the room. */
  predicate Roomy(i: Instance, gpus: nat, cpu: int, memory: int) {
    i.gpus == gpus && i.vcpus >= cpu && i.memory >= memory
  }

  lemma RoomyIff(f: Family, count: int, cpu: int, memory: int, gpus: nat, i: Instance)
    requires Rounded(f, count, gpus)
    ensures InstanceFor(f, count).Some?
    ensures i in Matching(f, count) <==> i in f && i.gpus == gpus
    ensures i in Fitting(f, count, cpu, memory) <==> i in f && Roomy(i, gpus, cpu, memory)
  {
    RoundedIff(f, count, gpus);
  }

  /** Best fit is an instance of the rounded-up count; of those with room the one with the fewest vCPUs
      and then the least memory; when none has room, the one with the most vCPUs and then memory. */
  lemma BestFitIs(f: Family, count: int, cpu: int, memory: int, gpus: nat)
    requires Rounded(f, count, gpus)
    ensures var best := BestFit(f, count, cpu, memory);
      && best.Some? && best.value in f && best.value.gpus == gpus
      && ((exists i :: i in f && Roomy(i, gpus, cpu, memory))
          ==> && Roomy(best.value, gpus, cpu, memory)
              && forall i :: i in f && Roomy(i, gpus, cpu, memory)
                    ==> !Before(i.vcpus, i.memory, best.value.vcpus, best.value.memory))
      && ((forall i :: i in f ==> !Roomy(i, gpus, cpu, memory))
          ==> forall i :: i in f && i.gpus == gpus
                ==> !Before(best.value.vcpus, best.value.memory, i.vcpus, i.memory))
  {
    RoundedIff(f, count, gpus);
    var best, fitting := BestFit(f, count, cpu, memory).value, Fitting(f, count, cpu, memory);
    RoomyIff(f, count, cpu, memory, gpus, best);
    forall i | i in f && i.gpus == gpus
      ensures i in Matching(f, count) && (i in fitting <==> Roomy(i, gpus, cpu, memory))
    {
      RoomyIff(f, count, cpu, memory, gpus, i);
    }
    if fitting == [] {
      forall i | i in f && i.gpus == gpus ensures !Before(best.vcpus, best.memory, i.vcpus, i.memory) {
        assert Leq(BySize(i), BySize(best));
      }
    } else {
      assert fitting[0] in fitting;
      RoomyIff(f, count, cpu, memory, gpus, fitting[0]);
      forall i | i in f && Roomy(i, gpus, cpu, memory)
        ensures !Before(i.vcpus, i.memory, best.vcpus, best.memory)
      {
        assert i in fitting && Leq(BySize(best), BySize(i));
      }
    }
  }

  /** The fallbacks are the instances with the count and the room, or all with the count when none has
      room, from the fewest vCPUs and then the least memory upwards. */
  lemma FallbacksAre(f: Family, count: int, cpu: int, memory: int, gpus: nat)
    requires Rounded(f, count, gpus)
    ensures Fallbacks(f, count, cpu, memory).Some?
    ensures var list := Fallbacks(f, count, cpu, memory).value;
      && (forall i :: i in list <==>
            i in f && i.gpus == gpus
            && (Roomy(i, gpus, cpu, memory) || forall j :: j in f ==> !Roomy(j, gpus, cpu, memory)))
      && forall p, q :: 0 <= p < q < |list| ==> !Before(list[q].vcpus, list[q].memory, list[p].vcpus, list[p].memory)
  {
    RoundedIff(f, count, gpus);
    var fitting, m := Fitting(f, count, cpu, memory), Matching(f, count);
    forall i
      ensures i in m <==> i in f && i.gpus == gpus
      ensures i in fitting <==> i in f && Roomy(i, gpus, cpu, memory)
    {
      RoomyIff(f, count, cpu, memory, gpus, i);
    }
    var list, items := Fallbacks(f, count, cpu, memory).value, if fitting != [] then fitting else m;
    SortedIsSorted(items, BySize);
    forall i ensures i in list <==> i in items {
      assert i in list <==> i in multiset(list);
      assert i in items <==> i in multiset(items);
    }
    if fitting != [] { assert fitting[0] in fitting; }
    forall p, q | 0 <= p < q < |list|
      ensures !Before(list[q].vcpus, list[q].memory, list[p].vcpus, list[p].memory)
    {
      assert Leq(BySize(list[p]), BySize(list[q]));
    }
  }

  // ---------------------------------------------------------------- what stays reserved

  /** The reserve of an instance: two vCPUs; 4 GiB, or a thirty-second of the memory from 160 GiB on. */
  predicate Keeps(vcpus: nat, memory: nat, cpu: int, used: int) {
    && (if vcpus >= 3 then vcpus - cpu == 2 else cpu == 1)
    && (if memory >= 160 then 32 * (memory - used) <= memory < 32 * (memory - used) + 32
        else if memory >= 5 then memory - used == 4 else used == 1)
  }

  /** The default request leaves the reserve of the instance chosen, and asks for one of each at least. */
  lemma DefaultKeeps(f: Family, count: int)
    requires Default(f, count).Some?
    ensures InstanceFor(f, count).Some?
    ensures var i, d := InstanceFor(f, count).value, Default(f, count).value;
      Keeps(i.vcpus, i.memory, d.cpu, d.memory) && d.gpus == i.gpus
  {
    var i, d := InstanceFor(f, count).value, Default(f, count).value;
    Reserve(i.memory);
  }

  lemma Reserve(memory: nat)
    ensures memory >= 160 ==> memory / 32 >= 5 && UsableMemory(memory) == memory - memory / 32
    ensures memory < 160 ==> memory / 32 <= 4 && UsableMemory(memory) == if memory >= 5 then memory - 4 else 1
  {
  }

  lemma Ceilings(f: Family, count: int, cpu: int, memory: int, gpus: nat, i: Instance, j: Instance)
    requires Rounded(f, count, gpus)
    requires i in f && i.gpus == gpus && forall x :: x in f && x.gpus == gpus ==> x.vcpus <= i.vcpus
    requires j in f && j.gpus == gpus && forall x :: x in f && x.gpus == gpus ==> x.memory <= j.memory
    ensures Clamp(f, count, cpu, memory)
         == Some(Clamped(Max(1, Min(cpu, UsableCpu(i.vcpus))), Max(1, Min(memory, UsableMemory(j.memory))), gpus))
  {
    RoundedIff(f, count, gpus);
    var m := Matching(f, count);
    RoomyIff(f, count, 0, 0, gpus, i);
    RoomyIff(f, count, 0, 0, gpus, j);
    forall x | x in m ensures x.vcpus <= i.vcpus && x.memory <= j.memory { RoomyIff(f, count, 0, 0, gpus, x); }
    LargestOf(m, i, j);
  }

  /** A request is raised to one and lowered to the most vCPUs, and the most memory, of any instance with
      the rounded-up count, less the reserve; in between it is left as asked for. */
  lemma ClampIs(f: Family, count: int, cpu: int, memory: int, gpus: nat, i: Instance, j: Instance,
                most: int, room: int)
    requires Rounded(f, count, gpus)
    requires i in f && i.gpus == gpus && forall x :: x in f && x.gpus == gpus ==> x.vcpus <= i.vcpus
    requires j in f && j.gpus == gpus && forall x :: x in f && x.gpus == gpus ==> x.memory <= j.memory
    requires Keeps(i.vcpus, j.memory, most, room)
    ensures Clamp(f, count, cpu, memory)
         == Some(Clamped(if cpu < 1 then 1 else if cpu > most then most else cpu,
                         if memory < 1 then 1 else if memory > room then room else memory, gpus))
  {
    Ceilings(f, count, cpu, memory, gpus, i, j);
    OneReserve(i.vcpus, j.memory, most, room);
  }

  lemma OneReserve(vcpus: nat, memory: nat, most: int, room: int)
    requires Keeps(vcpus, memory, most, room)
    ensures UsableCpu(vcpus) == most >= 1 && UsableMemory(memory) == room >= 1
  {
    Reserve(memory);
    if memory >= 160 { assert memory - room == memory / 32; }
  }

  lemma LargestOf(m: seq<Instance>, i: Instance, j: Instance)
    requires i in m && j in m && forall x :: x in m ==> x.vcpus <= i.vcpus && x.memory <= j.memory
    ensures MaxVcpus(m) == i.vcpus && MaxMemory(m) == j.memory
  {
    var v :| v in m && v.vcpus == MaxVcpus(m);
    var w :| w in m && w.memory == MaxMemory(m);
  }

  /** No family has the count: every function refuses, and only then. */
  lemma RefusedIff(f: Family, count: int, cpu: int, memory: int)
    ensures (forall i :: i in f ==> i.gpus < count)
       <==> InstanceFor(f, count).None?
    ensures InstanceFor(f, count).None?
       <==> Clamp(f, count, cpu, memory).None?
    ensures InstanceFor(f, count).None? <==> BestFit(f, count, cpu, memory).None?
    ensures InstanceFor(f, count).None? <==> Fallbacks(f, count, cpu, memory).None?
    ensures InstanceFor(f, count).None? <==> Default(f, count).None?
  {
    RoundsUp(f, count, count);
  }
}
