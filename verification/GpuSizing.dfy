/** app/core/aws_gpu_config.py: choosing an EC2 instance for a GPU request and clamping the request. */
module GpuSizing {
  import opened Wrappers

  datatype Instance = Instance(name: string, gpus: nat, vcpus: nat, memory: nat)

  /** The sizes of one GPU type. */
  type Family = seq<Instance>

  const L4: Family :=
    [Instance("g6.xlarge", 1, 4, 16), Instance("g6.2xlarge", 1, 8, 32), Instance("g6.4xlarge", 1, 16, 64),
     Instance("g6.8xlarge", 1, 32, 128), Instance("g6.16xlarge", 1, 64, 256), Instance("g6.12xlarge", 4, 48, 192),
     Instance("g6.24xlarge", 4, 96, 384), Instance("g6.48xlarge", 8, 192, 768)]
  const L4_HM: Family := [Instance("gr6.4xlarge", 1, 16, 256), Instance("gr6.8xlarge", 1, 32, 512)]
  const A10G: Family :=
    [Instance("g5.xlarge", 1, 4, 16), Instance("g5.2xlarge", 1, 8, 32), Instance("g5.4xlarge", 1, 16, 64),
     Instance("g5.8xlarge", 1, 32, 128), Instance("g5.16xlarge", 1, 64, 256), Instance("g5.12xlarge", 4, 48, 192),
     Instance("g5.24xlarge", 4, 96, 384), Instance("g5.48xlarge", 8, 192, 768)]
  const L40S: Family :=
    [Instance("g6e.xlarge", 1, 4, 32), Instance("g6e.2xlarge", 1, 8, 64), Instance("g6e.4xlarge", 1, 16, 128),
     Instance("g6e.8xlarge", 1, 32, 256), Instance("g6e.16xlarge", 1, 64, 512), Instance("g6e.12xlarge", 4, 48, 384),
     Instance("g6e.24xlarge", 4, 96, 768), Instance("g6e.48xlarge", 8, 192, 1536)]
  const A100: Family := [Instance("p4d.24xlarge", 8, 96, 1152)]
  const H100: Family := [Instance("p5.4xlarge", 1, 16, 256), Instance("p5.48xlarge", 8, 192, 2048)]

  datatype GpuType = TypeL4 | TypeL4HM | TypeA10G | TypeL40S | TypeA100 | TypeH100

  function FamilyOf(t: GpuType): Family {
    match t
    case TypeL4 => L4
    case TypeL4HM => L4_HM
    case TypeA10G => A10G
    case TypeL40S => L40S
    case TypeA100 => A100
    case TypeH100 => H100
  }

  // ---------------------------------------------------------------- ordering by a pair of numbers

  datatype Key = Key(first: nat, second: nat)

  predicate Leq(a: Key, b: Key) { a.first < b.first || (a.first == b.first && a.second <= b.second) }

  function BySize(i: Instance): Key { Key(i.vcpus, i.memory) }

  function ByGpus(i: Instance): Key { Key(i.gpus, i.vcpus) }

  /** min(items, key=...): the first of the smallest. */
  function MinBy(items: seq<Instance>, key: Instance -> Key): (r: Instance)
    requires items != []
    ensures r in items && forall i :: i in items ==> Leq(key(r), key(i))
  {
    if |items| == 1 then items[0]
    else
      var before := MinBy(items[..|items| - 1], key);
      if Leq(key(before), key(items[|items| - 1])) then before else items[|items| - 1]
  }

  /** max(items, key=...): the first of the largest. */
  function MaxBy(items: seq<Instance>, key: Instance -> Key): (r: Instance)
    requires items != []
    ensures r in items && forall i :: i in items ==> Leq(key(i), key(r))
  {
    if |items| == 1 then items[0]
    else
      var before := MaxBy(items[..|items| - 1], key);
      if Leq(key(items[|items| - 1]), key(before)) then before else items[|items| - 1]
  }

  /** Behind every item that is not larger: the sort is stable. */
  function Insert(sorted: seq<Instance>, item: Instance, key: Instance -> Key): seq<Instance> {
    if sorted == [] || !Leq(key(sorted[0]), key(item)) then [item] + sorted
    else [sorted[0]] + Insert(sorted[1..], item, key)
  }

  function Sorted(items: seq<Instance>, key: Instance -> Key): seq<Instance> {
    if items == [] then [] else Insert(Sorted(items[..|items| - 1], key), items[|items| - 1], key)
  }

  // ---------------------------------------------------------------- the module's functions

  function Where(items: seq<Instance>, keep: Instance -> bool): (r: seq<Instance>)
    ensures forall i :: i in r <==> i in items && keep(i)
  {
    if items == [] then []
    else
      var rest := Where(items[1..], keep);
      if keep(items[0]) then [items[0]] + rest else rest
  }

  function Candidates(f: Family, count: int): seq<Instance> { Where(f, (i: Instance) => i.gpus >= count) }

  /** get_instance_for_gpu; None where the source raises ValueError. */
  function InstanceFor(f: Family, count: int): Option<Instance> {
    if Candidates(f, count) == [] then None else Some(MinBy(Candidates(f, count), ByGpus))
  }

  /** The instances with the GPU count the request is rounded up to. */
  function Matching(f: Family, count: int): (r: seq<Instance>)
    requires InstanceFor(f, count).Some?
    ensures InstanceFor(f, count).value in r
  {
    var gpus := InstanceFor(f, count).value.gpus;
    Where(f, (i: Instance) => i.gpus == gpus)
  }

  function Max(a: int, b: int): int { if a < b then b else a }

  function Min(a: int, b: int): int { if a < b then a else b }

  function MaxVcpus(items: seq<Instance>): (r: nat)
    requires items != []
    ensures (forall i :: i in items ==> i.vcpus <= r) && exists i :: i in items && i.vcpus == r
  {
    if |items| == 1 then (assert items[0] in items; items[0].vcpus)
    else
      var before := MaxVcpus(items[..|items| - 1]);
      var last := items[|items| - 1];
      assert items == items[..|items| - 1] + [last];
      Max(before, last.vcpus)
  }

  function MaxMemory(items: seq<Instance>): (r: nat)
    requires items != []
    ensures (forall i :: i in items ==> i.memory <= r) && exists i :: i in items && i.memory == r
  {
    if |items| == 1 then (assert items[0] in items; items[0].memory)
    else
      var before := MaxMemory(items[..|items| - 1]);
      var last := items[|items| - 1];
      assert items == items[..|items| - 1] + [last];
      Max(before, last.memory)
  }

  /** What is left of a size for the workload. */
  function UsableCpu(vcpus: nat): int { Max(1, vcpus - 2) }

  function UsableMemory(memory: nat): int { Max(1, memory - Max(4, memory / 32)) }

  /** clamp_resources: cpu, memory and the GPU count used. */
  datatype Clamped = Clamped(cpu: int, memory: int, gpus: nat)

  function Clamp(f: Family, count: int, cpu: int, memory: int): Option<Clamped> {
    if InstanceFor(f, count).None? then None
    else
      var m := Matching(f, count);
      Some(Clamped(Max(1, Min(cpu, UsableCpu(MaxVcpus(m)))), Max(1, Min(memory, UsableMemory(MaxMemory(m)))),
                   InstanceFor(f, count).value.gpus))
  }

  predicate Fits(i: Instance, cpu: int, memory: int) { i.vcpus >= cpu && i.memory >= memory }

  function Fitting(f: Family, count: int, cpu: int, memory: int): seq<Instance>
    requires InstanceFor(f, count).Some?
  {
    Where(Matching(f, count), (i: Instance) => Fits(i, cpu, memory))
  }

  function BestFit(f: Family, count: int, cpu: int, memory: int): Option<Instance> {
    if InstanceFor(f, count).None? then None
    else if Fitting(f, count, cpu, memory) != [] then Some(MinBy(Fitting(f, count, cpu, memory), BySize))
    else Some(MaxBy(Matching(f, count), BySize))
  }

  function Fallbacks(f: Family, count: int, cpu: int, memory: int): Option<seq<Instance>> {
    if InstanceFor(f, count).None? then None
    else if Fitting(f, count, cpu, memory) != [] then Some(Sorted(Fitting(f, count, cpu, memory), BySize))
    else Some(Sorted(Matching(f, count), BySize))
  }

  /** get_default_resources, as numbers. */
  function Default(f: Family, count: int): Option<Clamped> {
    if InstanceFor(f, count).None? then None
    else
      var i := InstanceFor(f, count).value;
      Some(Clamped(UsableCpu(i.vcpus), UsableMemory(i.memory), i.gpus))
  }

  // ---------------------------------------------------------------- clamping

  /** Clamping twice is clamping once. */
  lemma ClampIsIdempotent(f: Family, count: int, cpu: int, memory: int)
    requires Clamp(f, count, cpu, memory).Some?
    ensures var c := Clamp(f, count, cpu, memory).value;
      Clamp(f, count, c.cpu, c.memory) == Some(c) && Clamp(f, c.gpus, c.cpu, c.memory) == Some(c)
  {
    SameCount(f, count);
  }

  /** Asking for the rounded-up count finds the same instances. */
  lemma SameCount(f: Family, count: int)
    requires InstanceFor(f, count).Some?
    ensures var gpus := InstanceFor(f, count).value.gpus;
      InstanceFor(f, gpus).Some? && InstanceFor(f, gpus).value.gpus == gpus && Matching(f, gpus) == Matching(f, count)
  {
    var i := InstanceFor(f, count).value;
    assert i in Candidates(f, i.gpus);
    var j := InstanceFor(f, i.gpus).value;
    assert j in Candidates(f, i.gpus) && j.gpus >= i.gpus;
    assert Leq(ByGpus(j), ByGpus(i));
    SameFilter(f, j.gpus, i.gpus);
  }

  lemma SameFilter(f: Family, a: nat, b: nat)
    requires a == b
    ensures Where(f, (i: Instance) => i.gpus == a) == Where(f, (i: Instance) => i.gpus == b)
  {
    SameWhere(f, (i: Instance) => i.gpus == a, (i: Instance) => i.gpus == b);
  }

  lemma {:induction false} SameWhere(f: Family, p: Instance -> bool, q: Instance -> bool)
    requires forall i :: p(i) == q(i)
    ensures Where(f, p) == Where(f, q)
    decreases |f|
  {
    if f != [] { SameWhere(f[1..], p, q); }
  }

  /** Among sizes with one GPU count, more vCPUs never come with less memory. */
  ghost predicate Aligned(f: Family) {
    forall i, j :: i in f && j in f && i.gpus == j.gpus && i.vcpus <= j.vcpus ==> i.memory <= j.memory
  }

  /** A clamped request fits an instance of the family with the count it was rounded up to. */
  lemma ClampedFits(f: Family, count: int, cpu: int, memory: int)
    requires Aligned(f) && Clamp(f, count, cpu, memory).Some?
    requires forall i :: i in f ==> i.vcpus >= 1 && i.memory >= 1
    ensures var c := Clamp(f, count, cpu, memory).value;
      && Fitting(f, count, c.cpu, c.memory) != []
      && BestFit(f, count, c.cpu, c.memory).Some? && Fits(BestFit(f, count, c.cpu, c.memory).value, c.cpu, c.memory)
      && BestFit(f, count, c.cpu, c.memory).value.gpus == c.gpus >= count
  {
    var m, c := Matching(f, count), Clamp(f, count, cpu, memory).value;
    var i :| i in m && i.vcpus == MaxVcpus(m);
    var j :| j in m && j.memory == MaxMemory(m);
    assert j.vcpus <= i.vcpus && i.memory == MaxMemory(m);
    assert Fits(i, c.cpu, c.memory);
    assert i in Fitting(f, count, c.cpu, c.memory);
    assert InstanceFor(f, count).value in Candidates(f, count);
  }

  ghost predicate Proportional(f: Family, ratio: nat) {
    forall k :: 0 <= k < |f| ==> f[k].memory == ratio * f[k].vcpus && f[k].vcpus >= 1
  }

  lemma ProportionalIsAligned(f: Family, ratio: nat)
    requires Proportional(f, ratio) && ratio >= 1
    ensures Aligned(f) && forall i :: i in f ==> i.vcpus >= 1 && i.memory >= 1
  {
    forall i, j | i in f && j in f && i.vcpus <= j.vcpus ensures i.memory <= j.memory {
      assert ratio * i.vcpus <= ratio * j.vcpus;
    }
    forall i | i in f ensures i.memory >= 1 { assert ratio * i.vcpus >= ratio; }
  }

  lemma L4IsProportional()
    ensures Proportional(L4, 4)
  {
  }

  lemma L4HMIsProportional()
    ensures Proportional(L4_HM, 16)
  {
  }

  lemma A10GIsProportional()
    ensures Proportional(A10G, 4)
  {
  }

  lemma L40SIsProportional()
    ensures Proportional(L40S, 8)
  {
  }

  lemma A100IsProportional()
    ensures Proportional(A100, 12)
  {
  }

  lemma H100IsAligned()
    ensures Aligned(H100) && forall i :: i in H100 ==> i.vcpus >= 1 && i.memory >= 1
  {
  }

  /** The published families are aligned, so every clamped request on them fits. */
  lemma FamiliesAreAligned(t: GpuType)
    ensures Aligned(FamilyOf(t)) && forall i :: i in FamilyOf(t) ==> i.vcpus >= 1 && i.memory >= 1
  {
    match t
    case TypeL4 => L4IsProportional(); ProportionalIsAligned(FamilyOf(t), 4);
    case TypeL4HM => L4HMIsProportional(); ProportionalIsAligned(FamilyOf(t), 16);
    case TypeA10G => A10GIsProportional(); ProportionalIsAligned(FamilyOf(t), 4);
    case TypeL40S => L40SIsProportional(); ProportionalIsAligned(FamilyOf(t), 8);
    case TypeA100 => A100IsProportional(); ProportionalIsAligned(FamilyOf(t), 12);
    case TypeH100 => H100IsAligned();
  }

  lemma UsableMemoryGrows(a: nat, b: nat)
    requires a <= b
    ensures UsableMemory(a) <= UsableMemory(b)
  {
    assert b / 32 - a / 32 <= b - a;
  }

  /** The default request is left alone by the clamp, in every family and for every count. */
  lemma DefaultIsFixpoint(f: Family, count: int)
    requires Default(f, count).Some?
    ensures var d := Default(f, count).value; Clamp(f, count, d.cpu, d.memory) == Some(d)
  {
    var i, m := InstanceFor(f, count).value, Matching(f, count);
    assert i in m;
    UsableMemoryGrows(i.memory, MaxMemory(m));
  }

  // ---------------------------------------------------------------- best fit and fallbacks

  lemma {:induction false} InsertHead(sorted: seq<Instance>, item: Instance, key: Instance -> Key)
    ensures |Insert(sorted, item, key)| == |sorted| + 1
    ensures Insert(sorted, item, key)[0] == if sorted == [] || !Leq(key(sorted[0]), key(item)) then item else sorted[0]
    decreases |sorted|
  {
    if sorted != [] { InsertHead(sorted[1..], item, key); }
  }

  /** The head of the stable sort is the first of the smallest. */
  lemma {:induction false} SortedHead(items: seq<Instance>, key: Instance -> Key)
    requires items != []
    ensures |Sorted(items, key)| == |items| && Sorted(items, key)[0] == MinBy(items, key)
    decreases |items|
  {
    var before, last := items[..|items| - 1], items[|items| - 1];
    InsertHead(Sorted(before, key), last, key);
    if before != [] { SortedHead(before, key); }
  }

  ghost predicate InOrder(s: seq<Instance>, key: Instance -> Key) {
    forall i, j :: 0 <= i < j < |s| ==> Leq(key(s[i]), key(s[j]))
  }

  lemma {:induction false} InsertContents(sorted: seq<Instance>, item: Instance, key: Instance -> Key)
    ensures multiset(Insert(sorted, item, key)) == multiset(sorted) + multiset{item}
    decreases |sorted|
  {
    if sorted != [] && Leq(key(sorted[0]), key(item)) {
      InsertContents(sorted[1..], item, key);
      assert sorted == [sorted[0]] + sorted[1..];
    }
  }

  lemma {:induction false} InsertInOrder(sorted: seq<Instance>, item: Instance, key: Instance -> Key)
    requires InOrder(sorted, key)
    ensures InOrder(Insert(sorted, item, key), key)
    decreases |sorted|
  {
    if sorted != [] && Leq(key(sorted[0]), key(item)) {
      var rest := sorted[1..];
      var r := Insert(rest, item, key);
      InsertInOrder(rest, item, key);
      InsertContents(rest, item, key);
      forall j | 0 <= j < |r| ensures Leq(key(sorted[0]), key(r[j])) {
        assert r[j] in multiset(r);
        if r[j] != item {
          assert r[j] in multiset(rest);
          var k :| 0 <= k < |rest| && rest[k] == r[j];
          assert sorted[k + 1] == r[j];
        }
      }
    } else if sorted != [] {
      assert forall j :: 0 <= j < |sorted| ==> Leq(key(sorted[0]), key(sorted[j]));
    }
  }

  /** The fallback list is sorted by size and holds exactly the instances it is made from. */
  lemma {:induction false} SortedIsSorted(items: seq<Instance>, key: Instance -> Key)
    ensures multiset(Sorted(items, key)) == multiset(items)
    ensures InOrder(Sorted(items, key), key)
    decreases |items|
  {
    if items != [] {
      SortedIsSorted(items[..|items| - 1], key);
      InsertContents(Sorted(items[..|items| - 1], key), items[|items| - 1], key);
      InsertInOrder(Sorted(items[..|items| - 1], key), items[|items| - 1], key);
      assert items == items[..|items| - 1] + [items[|items| - 1]];
    }
  }

  /** Best fit is the first fallback exactly when something fits or all sizes with the GPU count are
      equally large: when nothing fits, best fit is the largest and the list starts with the smallest. */
  lemma BestFitIsFirstFallbackIff(f: Family, count: int, cpu: int, memory: int)
    requires InstanceFor(f, count).Some?
    ensures var fallbacks := Fallbacks(f, count, cpu, memory).value;
      && fallbacks != []
      && (BestFit(f, count, cpu, memory).value == fallbacks[0] <==>
            Fitting(f, count, cpu, memory) != []
            || forall i, j :: i in Matching(f, count) && j in Matching(f, count) ==> BySize(i) == BySize(j))
  {
    var m, fitting := Matching(f, count), Fitting(f, count, cpu, memory);
    if fitting != [] {
      SortedHead(fitting, BySize);
    } else {
      SortedHead(m, BySize);
      var least, most := MinBy(m, BySize), MaxBy(m, BySize);
      if least == most {
        forall i, j | i in m && j in m ensures BySize(i) == BySize(j) {
          Antisymmetric(BySize(least), BySize(i));
          Antisymmetric(BySize(least), BySize(j));
        }
      } else if forall i, j :: i in m && j in m ==> BySize(i) == BySize(j) {
        FirstOfEqual(m, BySize);
      }
    }
  }

  /** A request too large for the family: the list does not start with the best fit. */
  lemma FallbacksStartElsewhere()
    ensures BestFit(L4_HM, 1, 1000, 1).Some? && Fallbacks(L4_HM, 1, 1000, 1).Some?
    ensures BestFit(L4_HM, 1, 1000, 1).value != Fallbacks(L4_HM, 1, 1000, 1).value[0]
  {
    var small, large := L4_HM[0], L4_HM[1];
    assert small in Matching(L4_HM, 1) && large in Matching(L4_HM, 1) && BySize(small) != BySize(large);
    assert Fitting(L4_HM, 1, 1000, 1) == [];
    BestFitIsFirstFallbackIff(L4_HM, 1, 1000, 1);
  }

  lemma Antisymmetric(a: Key, b: Key)
    requires Leq(a, b) && Leq(b, a)
    ensures a == b
  {
  }

  lemma {:induction false} FirstOfEqual(items: seq<Instance>, key: Instance -> Key)
    requires items != [] && forall i, j :: i in items && j in items ==> key(i) == key(j)
    ensures MinBy(items, key) == MaxBy(items, key) == items[0]
    decreases |items|
  {
    if |items| > 1 {
      var before := items[..|items| - 1];
      assert items == before + [items[|items| - 1]];
      assert items[0] in items && items[|items| - 1] in items;
      FirstOfEqual(before, key);
    }
  }

  /** A larger request never gets a smaller instance, whether it fits or not. */
  lemma BestFitIsMonotone(f: Family, count: int, cpu: int, memory: int, moreCpu: int, moreMemory: int)
    requires InstanceFor(f, count).Some? && cpu <= moreCpu && memory <= moreMemory
    ensures Leq(BySize(BestFit(f, count, cpu, memory).value), BySize(BestFit(f, count, moreCpu, moreMemory).value))
  {
    var some, more := Fitting(f, count, cpu, memory), Fitting(f, count, moreCpu, moreMemory);
    if more != [] {
      var best := BestFit(f, count, moreCpu, moreMemory).value;
      assert best in more && Fits(best, cpu, memory);
      assert best in some;
    }
  }

  /** More GPUs asked for, more GPUs given; never fewer than asked for, and none only above the
      largest count. */
  lemma RoundsUp(f: Family, count: int, more: int)
    requires count <= more
    ensures InstanceFor(f, more).Some?
           ==> InstanceFor(f, count).Some? && InstanceFor(f, count).value.gpus <= InstanceFor(f, more).value.gpus
    ensures InstanceFor(f, count).Some? <==> exists i :: i in f && i.gpus >= count
    ensures InstanceFor(f, count).Some? ==> InstanceFor(f, count).value.gpus >= count
  {
    if InstanceFor(f, more).Some? {
      var i := InstanceFor(f, more).value;
      assert i in Candidates(f, more) && i in Candidates(f, count);
    }
    if i :| i in f && i.gpus >= count { assert i in Candidates(f, count); }
    if Candidates(f, count) != [] { assert Candidates(f, count)[0] in Candidates(f, count); }
  }
}
