/**
  Phase 1 of _discover_vpcs_for_account in lambda_vpc_discovery/vpc_discovery_service.py: which
  region holds each requested VPC, looking at the checks in whatever order they complete.
*/
module VpcScan {
  import opened Sequences

  /** One check: is this VPC in this region? */
  datatype Task = Task(vpc: string, region: string)

  function TasksIn(region: string, vpcs: seq<string>): seq<Task> {
    seq(|vpcs|, i requires 0 <= i < |vpcs| => Task(vpcs[i], region))
  }

  /** Every requested VPC in every region. */
  function Tasks(regions: seq<string>, vpcs: seq<string>): seq<Task> {
    if regions == [] then []
    else Tasks(regions[..|regions| - 1], vpcs) + TasksIn(regions[|regions| - 1], vpcs)
  }

  /** A completion order of the checks. */
  ghost predicate IsOrder(order: seq<Task>, tasks: seq<Task>) { multiset(order) == multiset(tasks) }

  datatype Progress = Progress(found: seq<Task>, remaining: set<string>)

  function Start(vpcs: seq<string>): Progress { Progress([], set v | v in vpcs) }

  function Take(p: Progress, t: Task): Progress { Progress(p.found + [t], p.remaining - {t.vpc}) }

  /** The loop over completed checks; `holds` is what the checks answer, errors counting as no.
      It ends early when nothing remains after a hit. */
  function Scan(holds: Task -> bool, order: seq<Task>, p: Progress): Progress
    decreases |order|
  {
    if order == [] then p
    else if !holds(order[0]) then Scan(holds, order[1..], p)
    else if Take(p, order[0]).remaining == {} then Take(p, order[0])
    else Scan(holds, order[1..], Take(p, order[0]))
  }

  method FindVpcs(holds: Task -> bool, order: seq<Task>, vpcs: seq<string>)
    returns (found: seq<Task>, remaining: set<string>)
    ensures Progress(found, remaining) == Scan(holds, order, Start(vpcs))
  {
    found, remaining := [], set v | v in vpcs;
    for i := 0 to |order|
      invariant Scan(holds, order[i..], Progress(found, remaining)) == Scan(holds, order, Start(vpcs))
    {
      assert order[i..][1..] == order[i + 1..];
      if holds(order[i]) {
        ghost var before := Progress(found, remaining);
        found := found + [order[i]];
        if order[i].vpc in remaining { remaining := remaining - {order[i].vpc}; }
        assert Progress(found, remaining) == Take(before, order[i]);
        if remaining == {} { return; }
      }
    }
  }

  // ---------------------------------------------------------------- what every run keeps

  /** The hits are requested VPCs the checks hold for, in order of completion, and the remaining ids
      are the requested ones without a hit. */
  ghost predicate Sound(holds: Task -> bool, vpcs: seq<string>, p: Progress) {
    && (forall i :: 0 <= i < |p.found| ==> holds(p.found[i]))
    && (forall v :: v in p.remaining <==> v in vpcs && !IsFound(p.found, v))
  }

  ghost predicate IsFound(found: seq<Task>, v: string) { exists i :: 0 <= i < |found| && found[i].vpc == v }

  lemma TakeSound(holds: Task -> bool, vpcs: seq<string>, p: Progress, t: Task)
    requires Sound(holds, vpcs, p) && holds(t)
    ensures Sound(holds, vpcs, Take(p, t))
  {
    var after := Take(p, t);
    forall v ensures IsFound(after.found, v) <==> IsFound(p.found, v) || v == t.vpc {
      if i :| 0 <= i < |p.found| && p.found[i].vpc == v { assert after.found[i].vpc == v; }
      assert after.found[|p.found|] == t;
    }
  }

  /** Requested ids are always split between found and remaining, and the run ends with nothing
      remaining or with every check examined. */
  lemma {:induction false} ScanSplits(holds: Task -> bool, vpcs: seq<string>, order: seq<Task>, p: Progress)
    requires Sound(holds, vpcs, p)
    ensures var end := Scan(holds, order, p);
      && Sound(holds, vpcs, end)
      && p.found <= end.found
      && (forall k :: |p.found| <= k < |end.found| ==> end.found[k] in order)
      && (end.remaining == {} || forall k :: 0 <= k < |order| && holds(order[k]) ==> IsFound(end.found, order[k].vpc))
    decreases |order|
  {
    if order != [] {
      var t, rest := order[0], order[1..];
      assert order == [t] + rest;
      if holds(t) {
        TakeSound(holds, vpcs, p, t);
        assert Take(p, t).found[|p.found|] == t;
        if Take(p, t).remaining != {} {
          ScanSplits(holds, vpcs, rest, Take(p, t));
          assert Scan(holds, rest, Take(p, t)).found[|p.found|] == t;
        }
      } else {
        ScanSplits(holds, vpcs, rest, p);
      }
    }
  }

  lemma StartSound(holds: Task -> bool, vpcs: seq<string>)
    ensures Sound(holds, vpcs, Start(vpcs))
  {
  }

  lemma {:induction false} TaskIff(regions: seq<string>, vpcs: seq<string>, t: Task)
    ensures t in Tasks(regions, vpcs) <==> t.region in regions && t.vpc in vpcs
    decreases |regions|
  {
    if regions != [] {
      var before, last := regions[..|regions| - 1], regions[|regions| - 1];
      TaskIff(before, vpcs, t);
      assert regions == before + [last];
      if t.region == last && t.vpc in vpcs {
        var i :| 0 <= i < |vpcs| && vpcs[i] == t.vpc;
        assert TasksIn(last, vpcs)[i] == t;
      }
    }
  }

  lemma SameMembers(order: seq<Task>, tasks: seq<Task>, t: Task)
    requires IsOrder(order, tasks)
    ensures t in order <==> t in tasks
  {
    assert t in multiset(order) <==> t in multiset(tasks);
  }

  /** Complete under every completion order: exactly the requested VPCs that some region holds are
      found, each at a place that holds it. */
  lemma ScanIsComplete(holds: Task -> bool, regions: seq<string>, vpcs: seq<string>, order: seq<Task>, v: string)
    requires IsOrder(order, Tasks(regions, vpcs))
    ensures var found := Scan(holds, order, Start(vpcs)).found;
      && (v in vpcs && (exists r :: r in regions && holds(Task(v, r))) <==> IsFound(found, v))
      && forall i :: 0 <= i < |found| ==> holds(found[i]) && found[i].vpc in vpcs && found[i].region in regions
  {
    var end := Scan(holds, order, Start(vpcs));
    StartSound(holds, vpcs);
    ScanSplits(holds, vpcs, order, Start(vpcs));
    forall i | 0 <= i < |end.found| ensures end.found[i].vpc in vpcs && end.found[i].region in regions {
      assert end.found[i] in order;
      SameMembers(order, Tasks(regions, vpcs), end.found[i]);
      TaskIff(regions, vpcs, end.found[i]);
    }
    if v in vpcs && exists r :: r in regions && holds(Task(v, r)) {
      var r :| r in regions && holds(Task(v, r));
      TaskIff(regions, vpcs, Task(v, r));
      SameMembers(order, Tasks(regions, vpcs), Task(v, r));
      var k :| 0 <= k < |order| && order[k] == Task(v, r);
      if end.remaining == {} { assert v !in end.remaining; } else { assert IsFound(end.found, order[k].vpc); }
    }
    if IsFound(end.found, v) {
      var i :| 0 <= i < |end.found| && end.found[i].vpc == v;
      assert end.found[i] == Task(v, end.found[i].region);
    }
  }

  // ---------------------------------------------------------------- exactly once

  /** Each VPC lives in one region. */
  ghost predicate OneRegion(holds: Task -> bool) {
    forall s: Task, t: Task :: holds(s) && holds(t) && s.vpc == t.vpc ==> s == t
  }

  lemma CountOfJoin<T>(s: seq<T>, t: seq<T>, x: T)
    ensures multiset(s + t)[x] == multiset(s)[x] + multiset(t)[x]
  {
    assert multiset(s + t) == multiset(s) + multiset(t);
  }

  lemma CountOfFirst<T>(s: seq<T>, x: T)
    requires s != []
    ensures multiset(s)[x] == multiset(s[1..])[x] + if s[0] == x then 1 else 0
  {
    assert s == [s[0]] + s[1..];
    CountOfJoin([s[0]], s[1..], x);
  }

  lemma {:induction false} CountIn(region: string, vpcs: seq<string>, t: Task)
    ensures multiset(TasksIn(region, vpcs))[t] == if t.region == region then multiset(vpcs)[t.vpc] else 0
    decreases |vpcs|
  {
    if vpcs != [] {
      CountIn(region, vpcs[1..], t);
      assert TasksIn(region, vpcs)[1..] == TasksIn(region, vpcs[1..]);
      CountOfFirst(TasksIn(region, vpcs), t);
      CountOfFirst(vpcs, t.vpc);
    }
  }

  /** A check runs as often as its id is requested. */
  lemma {:induction false} TaskCount(regions: seq<string>, vpcs: seq<string>, t: Task)
    requires NoDuplicates(regions)
    ensures multiset(Tasks(regions, vpcs))[t] == if t.region in regions then multiset(vpcs)[t.vpc] else 0
    decreases |regions|
  {
    if regions != [] {
      var before, last := regions[..|regions| - 1], regions[|regions| - 1];
      assert regions == before + [last];
      TaskCount(before, vpcs, t);
      CountIn(last, vpcs, t);
      CountOfJoin(Tasks(before, vpcs), TasksIn(last, vpcs), t);
    }
  }

  /** A check is a hit at most as often as it runs, and as often if something remains at the end. */
  lemma {:induction false} ScanCounts(holds: Task -> bool, order: seq<Task>, p: Progress, t: Task)
    requires holds(t)
    ensures var end := Scan(holds, order, p);
      && multiset(p.found)[t] <= multiset(end.found)[t] <= multiset(p.found)[t] + multiset(order)[t]
      && (end.remaining != {} ==> multiset(end.found)[t] == multiset(p.found)[t] + multiset(order)[t])
    decreases |order|
  {
    if order != [] {
      CountOfFirst(order, t);
      CountOfJoin(p.found, [order[0]], t);
      if !holds(order[0]) {
        ScanCounts(holds, order[1..], p, t);
      } else if Take(p, order[0]).remaining != {} {
        ScanCounts(holds, order[1..], Take(p, order[0]), t);
      }
    }
  }

  /** Each check that holds is a hit exactly once. */
  ghost predicate EachOnce(holds: Task -> bool, regions: seq<string>, vpcs: seq<string>, order: seq<Task>) {
    forall t: Task :: multiset(Scan(holds, order, Start(vpcs)).found)[t]
                   == if t in Tasks(regions, vpcs) && holds(t) then 1 else 0
  }

  /** A held requested id is a hit at least once and at most as often as it is requested; exactly as
      often when some requested id is held nowhere. */
  lemma HitCount(holds: Task -> bool, regions: seq<string>, vpcs: seq<string>, order: seq<Task>, t: Task)
    requires IsOrder(order, Tasks(regions, vpcs)) && NoDuplicates(regions) && OneRegion(holds)
    requires t in Tasks(regions, vpcs) && holds(t)
    ensures 1 <= multiset(Scan(holds, order, Start(vpcs)).found)[t] <= multiset(vpcs)[t.vpc]
    ensures (exists v :: v in vpcs && forall r :: r in regions ==> !holds(Task(v, r)))
        ==> multiset(Scan(holds, order, Start(vpcs)).found)[t] == multiset(vpcs)[t.vpc]
  {
    var end := Scan(holds, order, Start(vpcs));
    TaskIff(regions, vpcs, t);
    TaskCount(regions, vpcs, t);
    ScanCounts(holds, order, Start(vpcs), t);
    ScanIsComplete(holds, regions, vpcs, order, t.vpc);
    assert holds(Task(t.vpc, t.region));
    var i :| 0 <= i < |end.found| && end.found[i].vpc == t.vpc;
    assert end.found[i] == t && t in multiset(end.found);
    if v :| v in vpcs && forall r :: r in regions ==> !holds(Task(v, r)) {
      ScanIsComplete(holds, regions, vpcs, order, v);
      StartSound(holds, vpcs);
      ScanSplits(holds, vpcs, order, Start(vpcs));
      assert v in end.remaining;
    }
  }

  /** No id that some region holds is requested twice. */
  ghost predicate HeldOnce(holds: Task -> bool, regions: seq<string>, vpcs: seq<string>) {
    forall t: Task :: holds(t) && t.region in regions ==> multiset(vpcs)[t.vpc] <= 1
  }

  ghost predicate OneId(vpcs: seq<string>) { forall v, w :: v in vpcs && w in vpcs ==> v == w }

  /** With one id the first hit ends the loop. */
  lemma {:induction false} OneIdOneHit(holds: Task -> bool, order: seq<Task>, v: string)
    requires forall t :: t in order ==> t.vpc == v
    ensures |Scan(holds, order, Progress([], {v})).found| <= 1
    decreases |order|
  {
    if order != [] {
      assert order[0] in order;
      if holds(order[0]) {
        assert Take(Progress([], {v}), order[0]).remaining == {};
      } else {
        OneIdOneHit(holds, order[1..], v);
      }
    }
  }

  lemma NoHitTwice(holds: Task -> bool, regions: seq<string>, vpcs: seq<string>, order: seq<Task>, t: Task)
    requires IsOrder(order, Tasks(regions, vpcs)) && NoDuplicates(regions) && OneRegion(holds)
    requires HeldOnce(holds, regions, vpcs) || OneId(vpcs)
    requires t in Tasks(regions, vpcs) && holds(t)
    ensures multiset(Scan(holds, order, Start(vpcs)).found)[t] == 1
  {
    HitCount(holds, regions, vpcs, order, t);
    TaskIff(regions, vpcs, t);
    if !HeldOnce(holds, regions, vpcs) {
      forall s | s in order ensures s.vpc == t.vpc {
        SameMembers(order, Tasks(regions, vpcs), s);
        TaskIff(regions, vpcs, s);
      }
      assert Start(vpcs) == Progress([], {t.vpc});
      OneIdOneHit(holds, order, t.vpc);
      assert |multiset(Scan(holds, order, Start(vpcs)).found)| <= 1;
    }
  }

  lemma OnlyHeldHits(holds: Task -> bool, regions: seq<string>, vpcs: seq<string>, order: seq<Task>, t: Task)
    requires IsOrder(order, Tasks(regions, vpcs)) && !(t in Tasks(regions, vpcs) && holds(t))
    ensures multiset(Scan(holds, order, Start(vpcs)).found)[t] == 0
  {
    ScanIsComplete(holds, regions, vpcs, order, t.vpc);
    TaskIff(regions, vpcs, t);
    assert t !in Scan(holds, order, Start(vpcs)).found;
  }

  /** One occurrence moved to the front. */
  lemma ToFront<T>(s: seq<T>, x: T) returns (rest: seq<T>)
    requires x in s
    ensures multiset([x] + rest) == multiset(s)
  {
    var i :| 0 <= i < |s| && s[i] == x;
    rest := s[..i] + s[i + 1..];
    assert s == s[..i] + [x] + s[i + 1..];
  }

  lemma Hit(holds: Task -> bool, t: Task, rest: seq<Task>, p: Progress)
    requires holds(t)
    ensures Scan(holds, [t] + rest, p)
         == if Take(p, t).remaining == {} then Take(p, t) else Scan(holds, rest, Take(p, t))
  {
    assert ([t] + rest)[1..] == rest;
  }

  /** Two copies of a check that complete first are both hits if another id is still open. */
  lemma CopiesFirst(holds: Task -> bool, t: Task, w: string, rest: seq<Task>, p: Progress)
    requires holds(t) && w != t.vpc && w in p.remaining && p.found == []
    ensures multiset(Scan(holds, [t] + ([t] + rest), p).found)[t] >= 2
  {
    var q := Take(p, t);
    assert w in q.remaining && w in Take(q, t).remaining && Take(q, t).found == [t, t];
    Hit(holds, t, [t] + rest, p);
    Hit(holds, t, rest, q);
    ScanCounts(holds, rest, Take(q, t), t);
  }

  lemma HitTwiceSomehow(holds: Task -> bool, regions: seq<string>, vpcs: seq<string>, t: Task, w: string)
    returns (order: seq<Task>)
    requires NoDuplicates(regions) && holds(t) && t.region in regions && multiset(vpcs)[t.vpc] >= 2
    requires w in vpcs && w != t.vpc
    ensures IsOrder(order, Tasks(regions, vpcs)) && !EachOnce(holds, regions, vpcs, order)
  {
    TaskCount(regions, vpcs, t);
    var others := ToFront(Tasks(regions, vpcs), t);
    CountOfJoin([t], others, t);
    var rest := ToFront(others, t);
    order := [t] + ([t] + rest);
    assert multiset(order) == multiset([t]) + multiset([t] + rest) == multiset([t] + others);
    CopiesFirst(holds, t, w, rest, Start(vpcs));
  }

  /** Over all completion orders each held id is found exactly once, if and only if no held id is
      requested twice or only one id is requested at all. */
  lemma OnceIff(holds: Task -> bool, regions: seq<string>, vpcs: seq<string>)
    requires NoDuplicates(regions) && OneRegion(holds)
    ensures (forall order :: IsOrder(order, Tasks(regions, vpcs)) ==> EachOnce(holds, regions, vpcs, order))
       <==> HeldOnce(holds, regions, vpcs) || OneId(vpcs)
  {
    if HeldOnce(holds, regions, vpcs) || OneId(vpcs) {
      forall order | IsOrder(order, Tasks(regions, vpcs)) ensures EachOnce(holds, regions, vpcs, order) {
        forall t: Task ensures multiset(Scan(holds, order, Start(vpcs)).found)[t]
                            == if t in Tasks(regions, vpcs) && holds(t) then 1 else 0 {
          if t in Tasks(regions, vpcs) && holds(t) {
            NoHitTwice(holds, regions, vpcs, order, t);
          } else {
            OnlyHeldHits(holds, regions, vpcs, order, t);
          }
        }
      }
    } else {
      var t: Task :| holds(t) && t.region in regions && multiset(vpcs)[t.vpc] > 1;
      var v, u :| v in vpcs && u in vpcs && v != u;
      var order := HitTwiceSomehow(holds, regions, vpcs, t, if v == t.vpc then u else v);
    }
  }

  /** One copy completes last: the loop has ended before it. */
  lemma CopyLast(holds: Task -> bool, s: Task, t: Task, p: Progress)
    requires holds(s) && holds(t) && s.vpc != t.vpc && p == Progress([], {s.vpc, t.vpc})
    ensures Scan(holds, [s] + ([t] + [s]), p).found == [s, t]
  {
    var q := Take(p, s);
    assert q == Progress([s], {t.vpc}) && Take(q, t) == Progress([s, t], {});
    Hit(holds, s, [t] + [s], p);
    Hit(holds, t, [s], q);
  }

  lemma TwoTasks(s: Task, t: Task, vpcs: seq<string>)
    requires s.region == t.region && vpcs == [s.vpc] + ([s.vpc] + [t.vpc])
    ensures Tasks([s.region], vpcs) == [s] + ([s] + [t])
  {
    assert Tasks([s.region], vpcs) == Tasks([], vpcs) + TasksIn(s.region, vpcs);
  }

  /** Two held ids of one region, one of them requested twice: whether each is found once depends on
      the order. */
  lemma RepeatedIdDependsOnOrder(holds: Task -> bool, s: Task, t: Task, vpcs: seq<string>)
    requires OneRegion(holds) && s.region == t.region && s.vpc != t.vpc && holds(s) && holds(t)
    requires vpcs == [s.vpc] + ([s.vpc] + [t.vpc])
    ensures exists order :: IsOrder(order, Tasks([s.region], vpcs)) && EachOnce(holds, [s.region], vpcs, order)
    ensures exists order :: IsOrder(order, Tasks([s.region], vpcs)) && !EachOnce(holds, [s.region], vpcs, order)
  {
    OneCopyLast(holds, s, t, vpcs);
    RequestedTwice(holds, s, t, [s.region], vpcs);
    OnceIff(holds, [s.region], vpcs);
  }

  lemma RequestedTwice(holds: Task -> bool, s: Task, t: Task, regions: seq<string>, vpcs: seq<string>)
    requires s.vpc != t.vpc && holds(s) && s.region in regions && vpcs == [s.vpc] + ([s.vpc] + [t.vpc])
    ensures !HeldOnce(holds, regions, vpcs) && !OneId(vpcs)
  {
    CountOfJoin([s.vpc], [s.vpc] + [t.vpc], s.vpc);
    CountOfJoin([s.vpc], [t.vpc], s.vpc);
    assert multiset(vpcs)[s.vpc] == 2;
    assert vpcs[0] == s.vpc && vpcs[2] == t.vpc;
    assert s.vpc in vpcs && t.vpc in vpcs;
  }

  lemma OneCopyLast(holds: Task -> bool, s: Task, t: Task, vpcs: seq<string>)
    requires OneRegion(holds) && s.region == t.region && s.vpc != t.vpc && holds(s) && holds(t)
    requires vpcs == [s.vpc] + ([s.vpc] + [t.vpc])
    ensures exists order :: IsOrder(order, Tasks([s.region], vpcs)) && EachOnce(holds, [s.region], vpcs, order)
  {
    var order := [s] + ([t] + [s]);
    TwoTasks(s, t, vpcs);
    assert multiset([s] + ([s] + [t])) == multiset(order);
    assert Start(vpcs).remaining == {s.vpc, t.vpc} by { assert vpcs[0] == s.vpc && vpcs[2] == t.vpc; }
    CopyLast(holds, s, t, Start(vpcs));
    forall x: Task ensures multiset([s, t])[x] == if x in Tasks([s.region], vpcs) && holds(x) then 1 else 0 {
      assert x in [s] + ([s] + [t]) <==> x == s || x == t;
    }
    assert EachOnce(holds, [s.region], vpcs, order);
  }
}
